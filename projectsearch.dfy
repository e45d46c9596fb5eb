/** The projects page's search box: a case-insensitive substring filter over each
    project's title and description. */
module ProjectSearch {
  import opened Content
  import opened Sequences

  /** `toLowerCase` on one character, for ASCII letters. */
  function LowerChar(c: char): (r: char)
    ensures !('A' <= r <= 'Z')
    ensures 'a' <= r <= 'z' ==> ('a' <= c <= 'z' || c as int == r as int - 32)
    ensures 'A' <= c <= 'Z' ==> r as int == c as int + 32
    ensures !('A' <= c <= 'Z') ==> r == c
  {
    if 'A' <= c <= 'Z' then (c as int + 32) as char else c
  }

  /** `toLowerCase` on a string, for ASCII letters. */
  function Lower(s: string): (r: string)
    ensures |r| == |s|
    ensures forall i :: 0 <= i < |s| ==> r[i] == LowerChar(s[i])
  {
    if s == [] then [] else [LowerChar(s[0])] + Lower(s[1..])
  }

  /** Lowering twice is lowering once. */
  lemma LowerIdempotent(s: string)
    ensures Lower(Lower(s)) == Lower(s)
  {
  }

  /** `needle` is a prefix of `hay`. */
  predicate StartsWith(hay: string, needle: string) {
    |needle| <= |hay| && hay[..|needle|] == needle
  }

  /** `hay.includes(needle)`. */
  predicate Includes(hay: string, needle: string): (r: bool)
    decreases |hay|
    ensures StartsWith(hay, needle) ==> r
    ensures r ==> |needle| <= |hay|
  {
    StartsWith(hay, needle) || (hay != [] && Includes(hay[1..], needle))
  }

  /** `needle` occurs in `hay` starting at position `i`. */
  predicate OccursAt(hay: string, needle: string, i: int) {
    0 <= i <= |hay| - |needle| && hay[i..i + |needle|] == needle
  }

  /** `includes` finds exactly the needles that occur at some position. */
  lemma {:induction false} IncludesAt(hay: string, needle: string)
    ensures Includes(hay, needle) <==> exists i :: OccursAt(hay, needle, i)
  {
    if StartsWith(hay, needle) {
      assert OccursAt(hay, needle, 0);
    }
    if hay != [] {
      IncludesAt(hay[1..], needle);
      if Includes(hay[1..], needle) {
        var i :| OccursAt(hay[1..], needle, i);
        assert hay[1..][i..i + |needle|] == hay[i + 1..i + 1 + |needle|];
        assert OccursAt(hay, needle, i + 1);
      }
      if exists i :: OccursAt(hay, needle, i) {
        var i :| OccursAt(hay, needle, i);
        if i > 0 {
          assert hay[1..][i - 1..i - 1 + |needle|] == hay[i..i + |needle|];
          assert OccursAt(hay[1..], needle, i - 1);
        }
      }
    } else if exists i :: OccursAt(hay, needle, i) {
      var i :| OccursAt(hay, needle, i);
      assert StartsWith(hay, needle);
    }
  }

  /** The text a search is matched against. */
  function SearchText(p: Project): (r: string)
    ensures |r| == |p.title| + 1 + |p.description|
    ensures r[..|p.title|] == Lower(p.title) && r[|p.title|] == ' '
    ensures r[|p.title| + 1..] == Lower(p.description)
  {
    Lower(p.title) + " " + Lower(p.description)
  }

  /** The filter callback: the lowered search occurs in the search text. */
  predicate Matches(p: Project, search: string) {
    Includes(SearchText(p), Lower(search))
  }

  /** `filteredProjects`. */
  function Filter(projects: seq<Project>, search: string): (r: seq<Project>)
    ensures IsSubsequence(r, projects)
    ensures forall p :: p in r <==> p in projects && Matches(p, search)
    ensures forall i :: 0 <= i < |r| ==> Matches(r[i], search)
    ensures forall p :: multiset(r)[p] == if Matches(p, search) then multiset(projects)[p] else 0
  {
    if projects == [] then []
    else
      assert projects == [projects[0]] + projects[1..];
      if Matches(projects[0], search) then [projects[0]] + Filter(projects[1..], search)
      else Filter(projects[1..], search)
  }

  /** A list of projects that all match is returned whole. */
  lemma {:induction false} FilterAllMatch(projects: seq<Project>, search: string)
    requires forall i :: 0 <= i < |projects| ==> Matches(projects[i], search)
    ensures Filter(projects, search) == projects
  {
    if projects != [] {
      FilterAllMatch(projects[1..], search);
      assert projects == [projects[0]] + projects[1..];
    }
  }

  /** An empty search keeps every project. */
  lemma FilterEmptySearch(projects: seq<Project>)
    ensures Filter(projects, "") == projects
  {
    forall i | 0 <= i < |projects| ensures Matches(projects[i], "") {
      assert StartsWith(SearchText(projects[i]), "");
    }
    FilterAllMatch(projects, "");
  }

  /** Searches that differ only in letter case give the same result. */
  lemma {:induction false} FilterIgnoresCase(projects: seq<Project>, a: string, b: string)
    requires Lower(a) == Lower(b)
    ensures Filter(projects, a) == Filter(projects, b)
  {
    if projects != [] {
      FilterIgnoresCase(projects[1..], a, b);
    }
  }

  /** Searching the result again with the same search changes nothing. */
  lemma FilterIdempotent(projects: seq<Project>, search: string)
    ensures Filter(Filter(projects, search), search) == Filter(projects, search)
  {
    FilterAllMatch(Filter(projects, search), search);
  }
}
