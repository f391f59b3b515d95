/** `pages/DiscoverPage.tsx`: the case-insensitive project search. */
module DiscoverPage {
  import opened Seqs
  import opened Text
  import opened Types

  /** Whether a project matches an already lower-cased term: in its title,
      its description or one of its required skills. */
  predicate MatchesLower(p: Project, lowered: string) {
    Includes(ToLower(p.title), lowered) ||
    Includes(ToLower(p.description), lowered) ||
    Any(p.requiredSkills, SkillHit(lowered))
  }

  /** The test applied to each required skill. */
  function SkillHit(lowered: string): string -> bool {
    (skill: string) => Includes(ToLower(skill), lowered)
  }

  /** Some skill matches exactly when the term occurs in some lower-cased skill. */
  lemma SkillsMatchIff(skills: seq<string>, t: string)
    ensures Any(skills, SkillHit(t)) <==>
            exists k, i :: 0 <= k < |skills| && OccursAt(t, ToLower(skills[k]), i)
  {
    forall k | 0 <= k < |skills| {
      IncludesIff(ToLower(skills[k]), t);
    }
  }

  predicate Matches(p: Project, term: string) {
    MatchesLower(p, ToLower(term))
  }

  /** A project matches exactly when the lower-cased term occurs in the
      lower-cased title, description or some skill. */
  lemma MatchesIff(p: Project, term: string)
    ensures Matches(p, term) <==>
            (exists i :: OccursAt(ToLower(term), ToLower(p.title), i)) ||
            (exists i :: OccursAt(ToLower(term), ToLower(p.description), i)) ||
            (exists k, i :: 0 <= k < |p.requiredSkills| && OccursAt(ToLower(term), ToLower(p.requiredSkills[k]), i))
  {
    var t := ToLower(term);
    IncludesIff(ToLower(p.title), t);
    IncludesIff(ToLower(p.description), t);
    SkillsMatchIff(p.requiredSkills, t);
  }

  /** The projects shown for a search term: the matching ones, in store order. */
  function Search(ps: seq<Project>, term: string): (r: seq<Project>)
    ensures forall p :: p in r <==> p in ps && Matches(p, term)
    ensures forall p: Project :: Matches(p, term) ==> multiset(r)[p] == multiset(ps)[p]
    ensures IsSubsequence(r, ps)
  {
    Filter(ps, (p: Project) => Matches(p, term))
  }

  /** With nothing typed every project is shown. */
  lemma EmptyTermKeepsAll(ps: seq<Project>)
    ensures Search(ps, "") == ps
  {
    forall i | 0 <= i < |ps| ensures Matches(ps[i], "") {
      IncludesEmpty(ToLower(ps[i].title));
    }
    FilterAll(ps, (p: Project) => Matches(p, ""));
  }

  /** Terms that differ only in letter case find the same projects. */
  lemma CaseInsensitive(ps: seq<Project>, a: string, b: string)
    requires ToLower(a) == ToLower(b)
    ensures Search(ps, a) == Search(ps, b)
  {
    FilterCongruent(ps, (p: Project) => Matches(p, a), (p: Project) => Matches(p, b));
  }

  /** Searching for the term in lower case is the same search. */
  lemma LowerCaseTermSameResult(ps: seq<Project>, term: string)
    ensures Search(ps, ToLower(term)) == Search(ps, term)
  {
    ToLowerIdempotent(term);
    CaseInsensitive(ps, ToLower(term), term);
  }

  /** A project found for a term is also found for every piece of it. */
  lemma SubstringStillMatches(p: Project, term: string, j: nat, k: nat)
    requires j <= k <= |term| && Matches(p, term)
    ensures Matches(p, term[j..k])
  {
    var t := ToLower(term);
    ToLowerSlice(term, j, k);
    assert ToLower(term[j..k]) == t[j..k];
    if Includes(ToLower(p.title), t) {
      IncludesSubstring(ToLower(p.title), t, j, k);
    } else if Includes(ToLower(p.description), t) {
      IncludesSubstring(ToLower(p.description), t, j, k);
    } else {
      var s :| 0 <= s < |p.requiredSkills| && SkillHit(t)(p.requiredSkills[s]);
      IncludesSubstring(ToLower(p.requiredSkills[s]), t, j, k);
      assert SkillHit(t[j..k])(p.requiredSkills[s]);
    }
  }

  /** Searching the results again with the same term changes nothing. */
  lemma SearchIdempotent(ps: seq<Project>, term: string)
    ensures Search(Search(ps, term), term) == Search(ps, term)
  {
    var r := Search(ps, term);
    forall i | 0 <= i < |r| ensures Matches(r[i], term) {
      assert r[i] in r;
    }
    FilterAll(r, (p: Project) => Matches(p, term));
  }
}
