/** The staff screen (`/usuarios`): the position filter, the list of
    positions offered by that filter, the avatar initials, and deletion. */
module StaffScreen {
  import opened Base
  import Seqs
  import Text
  import Services
  import Screens

  /** The filter value that shows every professional. */
  const AllPositions: string := "all"

  const DeleteFailed: string := "Erro ao deletar profissional"

  type Screen = Screens.ListScreen<Services.Professional>

  /** The call `loadProfessionals` makes: the professional list, filtered by
      the search term only when one was typed. */
  function LoadCall(searchTerm: string): (c: Services.Call)
    ensures c == Services.ListProfessionals(Some(searchTerm))
    ensures Services.Build(c).path == "/professionals" && Services.Build(c).verb == Get
    ensures Services.Build(c).params == if searchTerm == "" then map[] else map["term" := searchTerm]
  {
    Services.ListProfessionals(Some(searchTerm))
  }

  /** `loadProfessionals()`: the list call, then the fetched professionals
      replace the shown ones, or a failure is only logged; loading ends. */
  function LoadProfessionals(s: Screen, searchTerm: string, reply: Result<seq<Services.Professional>>): (r: (Screen, Services.Call))
    ensures r.1 == LoadCall(searchTerm)
    ensures !r.0.loading
    ensures reply.Ok? ==> r.0.items == reply.value
    ensures reply.Err? ==> r.0.items == s.items
    ensures r.0.selectedId == s.selectedId && r.0.editOpen == s.editOpen
  {
    (Screens.LoadList(s, reply), LoadCall(searchTerm))
  }

  /** `filteredProfessionals`: with the "all" filter, every professional;
      otherwise exactly those holding the chosen position, each as often as
      listed and in the listed order. */
  function FilterByPosition(ps: seq<Services.Professional>, filter: string): (r: seq<Services.Professional>)
    ensures filter == "all" ==> r == ps
    ensures filter != "all" ==> forall i :: 0 <= i < |r| ==> r[i].position == filter
    ensures filter != "all" ==> forall p: Services.Professional :: p.position == filter ==> multiset(r)[p] == multiset(ps)[p]
    ensures Seqs.IsSubsequence(r, ps)
  {
    var keep := (p: Services.Professional) => !(filter != AllPositions && p.position != filter);
    var r := Seqs.Filter(ps, keep);
    if filter == AllPositions then
      Seqs.FilterKeepAll(ps, keep);
      r
    else r
  }

  function Positions(ps: seq<Services.Professional>): (r: seq<string>)
    ensures |r| == |ps| && forall i :: 0 <= i < |ps| ==> r[i] == ps[i].position
  {
    seq(|ps|, i requires 0 <= i < |ps| => ps[i].position)
  }

  /** `uniquePositions = Array.from(new Set(positions))`: every position
      once, in order of first appearance. */
  method UniquePositions(ps: seq<Services.Professional>) returns (out: seq<string>)
    ensures out == Seqs.Dedup(Positions(ps))
    ensures Seqs.NoDuplicates(out)
    ensures forall x :: x in out <==> exists i :: 0 <= i < |ps| && ps[i].position == x
  {
    var positions := Positions(ps);
    var seen: set<string> := {};
    out := [];
    var i := 0;
    while i < |positions|
      invariant 0 <= i <= |positions|
      invariant out == Seqs.Dedup(positions[..i])
      invariant seen == set x | x in out
    {
      assert positions[..i + 1][..i] == positions[..i];
      if positions[i] !in seen {
        seen := seen + {positions[i]};
        out := out + [positions[i]];
      }
      i := i + 1;
    }
    assert positions[..|positions|] == positions;
    Seqs.DedupElements(positions);
    forall x | x in out
      ensures exists i :: 0 <= i < |ps| && ps[i].position == x
    {
      var k :| 0 <= k < |positions| && positions[k] == x;
      assert ps[k].position == x;
    }
  }

  // ---------------------------------------------------------------------
  // Initials
  // ---------------------------------------------------------------------

  /** `words.map(n => n[0]).join("")`: the first character of every word;
      an empty word contributes nothing (`undefined` joins as ""). */
  function Heads(words: seq<string>): string
    decreases |words|
  {
    if |words| == 0 then ""
    else (if words[0] == "" then "" else [words[0][0]]) + Heads(words[1..])
  }

  /** `getInitials(name)`: the heads of the space-separated words, upper
      cased, cut to two characters. */
  function Initials(name: string): string {
    var heads := Text.Upper(Heads(Text.Split(name, ' ')));
    if |heads| <= 2 then heads else heads[..2]
  }

  /** The characters that start a word: non-space characters at the start
      of `s` (when `atStart`) or right after a space. */
  function WordStarts(s: string, atStart: bool): string
    decreases |s|
  {
    if |s| == 0 then ""
    else (if atStart && s[0] != ' ' then [s[0]] else "") + WordStarts(s[1..], s[0] == ' ')
  }

  /** Scanning a word (no spaces) yields its first character when it starts
      a word, and nothing else. */
  lemma {:induction false} WordStartsOfWord(w: string, rest: string, atStart: bool)
    requires ' ' !in w
    ensures WordStarts(w + rest, atStart) ==
      (if atStart && w != "" then [w[0]] else "") + WordStarts(rest, if w == "" then atStart else false)
    decreases |w|
  {
    if w == "" {
      assert w + rest == rest;
    } else {
      assert (w + rest)[0] == w[0] && w[0] != ' ';
      assert (w + rest)[1..] == w[1..] + rest;
      WordStartsOfWord(w[1..], rest, false);
    }
  }

  /** The heads of a list of words: the first word's, then the others'. */
  lemma HeadsCons(w: string, pieces: seq<string>)
    ensures Heads([w] + pieces) == (if w == "" then "" else [w[0]]) + Heads(pieces)
  {
    assert ([w] + pieces)[1..] == pieces;
  }

  /** Splitting at spaces and taking each word's first character is the
      same as scanning for word starts. */
  lemma {:induction false} HeadsAreWordStarts(s: string)
    ensures Heads(Text.Split(s, ' ')) == WordStarts(s, true)
    decreases |s|
  {
    match SplitFirst(s, ' ')
    case None =>
      assert Text.Split(s, ' ') == [s];
      HeadsCons(s, []);
      WordStartsOfWord(s, "", true);
      assert s + "" == s;
    case Some(parts) =>
      var (w, rest) := parts;
      var pieces := Text.Split(rest, ' ');
      assert Text.Split(s, ' ') == [w] + pieces;
      HeadsCons(w, pieces);
      HeadsAreWordStarts(rest);
      WordStartsOfWord(w, [' '] + rest, true);
      assert w + ([' '] + rest) == s;
      AfterSpace(rest, w == "");
  }

  /** The initials are at most two characters: the upper-cased first
      characters of the first two words, where words are separated by
      single spaces and empty words are skipped. */
  lemma InitialsAreFirstWordStarts(name: string)
    ensures var starts := WordStarts(name, true);
      && |Initials(name)| == (if |starts| < 2 then |starts| else 2)
      && forall i :: 0 <= i < |Initials(name)| ==> Initials(name)[i] == Text.UpperChar(starts[i])
  {
    HeadsAreWordStarts(name);
  }

  /** After a space, the next character starts a word. */
  lemma AfterSpace(s: string, atStart: bool)
    ensures WordStarts([' '] + s, atStart) == WordStarts(s, true)
  {
    assert ([' '] + s)[1..] == s;
  }

  /** Scanning a name that starts with two words finds their first
      characters first. */
  lemma TwoWordStarts(a: string, b: string, rest: string)
    requires a != "" && b != "" && ' ' !in a && ' ' !in b
    ensures WordStarts(a + " " + b + rest, true) == [a[0], b[0]] + WordStarts(rest, false)
  {
    var second := b + rest;
    var tail := [' '] + second;
    JoinWords(a, b, rest);
    WordStartsOfWord(a, tail, true);
    AfterSpace(second, false);
    WordStartsOfWord(b, rest, true);
  }

  /** Regrouping a two-word name around its separating space. */
  lemma JoinWords(a: string, b: string, rest: string)
    ensures a + " " + b + rest == a + ([' '] + (b + rest))
  {
  }

  /** A name whose first two words are `a` and `b` has as initials their
      upper-cased first characters, whatever follows. */
  lemma InitialsOfTwoWords(a: string, b: string, rest: string)
    requires a != "" && b != "" && ' ' !in a && ' ' !in b
    ensures Initials(a + " " + b + rest) == [Text.UpperChar(a[0]), Text.UpperChar(b[0])]
  {
    var name := a + " " + b + rest;
    InitialsAreFirstWordStarts(name);
    TwoWordStarts(a, b, rest);
    var starts := WordStarts(name, true);
    assert starts[0] == a[0] && starts[1] == b[0];
  }

  /** Leading spaces only make empty words, which contribute nothing. */
  lemma {:induction false} InitialsIgnoreLeadingSpace(name: string)
    ensures Initials(" " + name) == Initials(name)
  {
    InitialsAreFirstWordStarts(" " + name);
    InitialsAreFirstWordStarts(name);
    assert (" " + name)[1..] == name;
    assert WordStarts(" " + name, true) == WordStarts(name, true);
  }

  /** A name with no word (empty, or only spaces) has no initials. */
  lemma InitialsOfBlank(name: string)
    requires forall i :: 0 <= i < |name| ==> name[i] == ' '
    ensures Initials(name) == ""
  {
    InitialsAreFirstWordStarts(name);
    SpacesStartNoWord(name, true);
  }

  /** Spaces start no word. */
  lemma {:induction false} SpacesStartNoWord(s: string, atStart: bool)
    requires forall i :: 0 <= i < |s| ==> s[i] == ' '
    ensures WordStarts(s, atStart) == ""
    decreases |s|
  {
    if |s| > 0 {
      SpacesStartNoWord(s[1..], true);
    }
  }

  // ---------------------------------------------------------------------
  // Deletion
  // ---------------------------------------------------------------------

  /** `handleDelete(id)` on this screen: the reload lists professionals
      with the current search term. */
  function HandleDelete(id: int, confirmed: bool, deleted: bool, searchTerm: string): (effects: seq<Screens.Effect>)
    ensures !confirmed ==> effects == []
    ensures confirmed ==> |effects| == 2 && effects[0] == Screens.Call(Services.Remove(Services.Professionals, id))
    ensures Screens.Call(Services.Remove(Services.Professionals, id)) in effects <==> confirmed
    ensures Screens.Call(LoadCall(searchTerm)) in effects <==> confirmed && deleted
    ensures Screens.Alert("Erro ao deletar profissional") in effects <==> confirmed && !deleted
  {
    Screens.DeleteOrder(Services.Professionals, id, confirmed, deleted, LoadCall(searchTerm), DeleteFailed);
    Screens.HandleDelete(Services.Professionals, id, confirmed, deleted, LoadCall(searchTerm), DeleteFailed)
  }
}
