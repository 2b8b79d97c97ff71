/**
  SkillSync's project service: the guards of `create`, `findOne` and `remove`,
  the skill filter of `findAll`, and the developer recommendation of
  `getRecommendedDevelopers` (score every developer against the project's
  required skills, drop the zero scores, rank by score, cut one page). The
  rows the repositories return are inputs.
*/
module Projects {
  import opened Wrappers
  import opened Js
  import opened Http
  import opened Pagination

  datatype Role = DeveloperRole | ClientRole
  datatype ProjectStatus = Open | InProgress | Completed | Cancelled
  datatype Experience = Junior | MidLevel | Senior

  datatype User = User(id: string, email: string, role: Role)

  /** A developer row; `skills` is absent when the column is empty. */
  datatype Developer = Developer(
    id: string, name: string, skills: Option<seq<string>>, experienceLevel: Experience, bio: Option<string>)

  /** A project row; `requiredSkills` is absent when the column is empty. */
  datatype Project = Project(
    id: string, client: User, title: string, description: string, requiredSkills: Option<seq<string>>,
    budget: Option<int>, duration: Option<string>, status: ProjectStatus)

  /** The fields a client supplies for a new project. */
  datatype ProjectDetails = ProjectDetails(
    title: string, description: string, requiredSkills: seq<string>, budget: Option<int>, duration: Option<string>)

  /** A project as `create` hands it to the repository, before it is saved and given an id. */
  datatype ProjectDraft = ProjectDraft(details: ProjectDetails, client: User, status: ProjectStatus)

  const InvalidClient: string := "Invalid client"

  function ProjectNotFound(id: string): string {
    "Project with ID " + id + " not found"
  }

  // ------------------------------------------------------------ guards

  /**
    `create`: refused with 400 'Invalid client' when the client does not exist
    or is not a client; otherwise the new project belongs to that client and
    is open.
  */
  function Create(client: Option<User>, details: ProjectDetails): (r: Result<ProjectDraft, HttpError>)
    ensures r.Failure? <==> client.None? || client.value.role != ClientRole
    ensures r.Failure? ==> r.error == HttpError(BadRequest, InvalidClient)
    ensures r.Success? ==> r.value.status == Open && r.value.client == client.value && r.value.details == details
  {
    if client.None? || client.value.role != ClientRole then Failure(HttpError(BadRequest, InvalidClient))
    else Success(ProjectDraft(details, client.value, Open))
  }

  /** `findOne`: the project found by `id`, or 404 naming the id. */
  function FindOne(id: string, found: Option<Project>): (r: Result<Project, HttpError>)
    ensures r.Failure? <==> found.None?
    ensures r.Failure? ==> r.error == HttpError(NotFound, ProjectNotFound(id))
    ensures r.Success? ==> r.value == found.value
  {
    if found.None? then Failure(HttpError(NotFound, ProjectNotFound(id))) else Success(found.value)
  }

  /**
    `remove`: 404 exactly when the delete reports that it affected no row; a
    driver that reports no count is taken as success.
  */
  function Remove(id: string, affected: Option<int>): (r: Result<(), HttpError>)
    ensures r.Failure? <==> affected == Some(0)
    ensures r.Failure? ==> r.error == HttpError(NotFound, ProjectNotFound(id))
  {
    if affected == Some(0) then Failure(HttpError(NotFound, ProjectNotFound(id))) else Success(())
  }

  // ------------------------------------------------------------ the skill filter of findAll

  /** The `skill` query parameter: absent, one comma-separated string, or repeated. */
  datatype SkillParam = NoSkill | OneString(s: string) | Many(items: seq<string>)

  /** A character of `Trim(s)` is a character of `s`. */
  lemma TrimKeepsCharacters(s: string, c: char)
    ensures c in Trim(s) ==> c in s
  {
    var t := Trim(s);
    var i := |s| - |TrimStart(s)|;
    TrimIsSlice(s);
    if c in t {
      var k :| 0 <= k < |t| && t[k] == c;
      assert s[i + k] == c;
    }
  }

  /** `.map(f).filter(s => s.length > 0)` for any `f`. */
  function NonEmptyImages(parts: seq<string>, f: string -> string): (r: seq<string>)
    ensures |r| <= |parts|
  {
    if parts == [] then []
    else
      var t := f(parts[0]);
      (if t != "" then [t] else []) + NonEmptyImages(parts[1..], f)
  }

  /**
    Every image kept is non-empty, and has property `p` when `f` maps parts
    with property `q` to strings with property `p`.
  */
  lemma {:induction false} NonEmptyImagesSatisfy(parts: seq<string>, f: string -> string,
                                                  q: string -> bool, p: string -> bool)
    requires forall i :: 0 <= i < |parts| ==> q(parts[i])
    requires forall x :: q(x) ==> p(f(x))
    ensures forall i :: 0 <= i < |NonEmptyImages(parts, f)| ==>
              NonEmptyImages(parts, f)[i] != "" && p(NonEmptyImages(parts, f)[i])
  {
    if parts != [] {
      var t := f(parts[0]);
      var rest := NonEmptyImages(parts[1..], f);
      assert forall i :: 0 <= i < |parts[1..]| ==> parts[1..][i] == parts[i + 1];
      NonEmptyImagesSatisfy(parts[1..], f, q, p);
      assert q(parts[0]) && p(t);
      assert NonEmptyImages(parts, f) == (if t != "" then [t] else []) + rest;
    }
  }

  lemma {:induction false} NonEmptyImagesAppend(a: seq<string>, b: seq<string>, f: string -> string)
    ensures NonEmptyImages(a + b, f) == NonEmptyImages(a, f) + NonEmptyImages(b, f)
  {
    if a == [] {
      assert a + b == b;
    } else {
      var t := f(a[0]);
      var head := if t != "" then [t] else [];
      assert (a + b)[0] == a[0];
      assert (a + b)[1..] == a[1..] + b;
      assert NonEmptyImages(a + b, f) == head + NonEmptyImages(a[1..] + b, f);
      NonEmptyImagesAppend(a[1..], b, f);
      assert head + (NonEmptyImages(a[1..], f) + NonEmptyImages(b, f)) ==
             (head + NonEmptyImages(a[1..], f)) + NonEmptyImages(b, f);
    }
  }

  lemma {:induction false} NonEmptyImagesOfFixed(parts: seq<string>, f: string -> string)
    requires forall i :: 0 <= i < |parts| ==> parts[i] != "" && f(parts[i]) == parts[i]
    ensures NonEmptyImages(parts, f) == parts
  {
    if parts != [] {
      assert forall i :: 0 <= i < |parts[1..]| ==> parts[1..][i] == parts[i + 1];
      NonEmptyImagesOfFixed(parts[1..], f);
      assert f(parts[0]) == parts[0] != "";
      assert parts == [parts[0]] + parts[1..];
    }
  }

  /** `.map(s => s.trim()).filter(s => s.length > 0)` */
  function TrimmedNonEmpty(parts: seq<string>): (r: seq<string>)
    ensures |r| <= |parts|
    ensures forall i :: 0 <= i < |r| ==> r[i] != "" && IsTrimmed(r[i])
  {
    NonEmptyImagesSatisfy(parts, Trim, _ => true, IsTrimmed);
    NonEmptyImages(parts, Trim)
  }

  /** A character that occurs in no part occurs in no parsed skill. */
  lemma TrimmedNonEmptyAvoids(parts: seq<string>, c: char)
    requires forall i :: 0 <= i < |parts| ==> c !in parts[i]
    ensures forall i :: 0 <= i < |TrimmedNonEmpty(parts)| ==> c !in TrimmedNonEmpty(parts)[i]
  {
    forall x | c !in x ensures c !in Trim(x) {
      TrimKeepsCharacters(x, c);
    }
    NonEmptyImagesSatisfy(parts, Trim, x => c !in x, x => c !in x);
  }

  /** Parsing keeps order: it distributes over concatenation. */
  lemma TrimmedNonEmptyAppend(a: seq<string>, b: seq<string>)
    ensures TrimmedNonEmpty(a + b) == TrimmedNonEmpty(a) + TrimmedNonEmpty(b)
  {
    NonEmptyImagesAppend(a, b, Trim);
  }

  /** Parts that are already trimmed and non-empty pass unchanged. */
  lemma TrimmedNonEmptyKeepsClean(parts: seq<string>)
    requires forall i :: 0 <= i < |parts| ==> parts[i] != "" && IsTrimmed(parts[i])
    ensures TrimmedNonEmpty(parts) == parts
  {
    forall i | 0 <= i < |parts| ensures Trim(parts[i]) == parts[i] {
      TrimFixesTrimmed(parts[i]);
    }
    NonEmptyImagesOfFixed(parts, Trim);
  }

  /**
    The skills of a `skill` parameter: a string is split on ',', an array taken
    as it is; each part is trimmed and empty parts are dropped. An absent or
    empty parameter gives none.
  */
  function ParseSkills(skill: SkillParam): (r: seq<string>)
    ensures skill.NoSkill? || skill == OneString("") ==> r == []
    ensures skill.OneString? ==> r == TrimmedNonEmpty(Split(skill.s, ','))
    ensures skill.Many? ==> r == TrimmedNonEmpty(skill.items)
    ensures forall i :: 0 <= i < |r| ==> r[i] != "" && IsTrimmed(r[i])
    ensures skill.OneString? ==> forall i :: 0 <= i < |r| ==> ',' !in r[i]
  {
    match skill
    case NoSkill => []
    case OneString(s) =>
      if s == "" then []
      else
        TrimmedNonEmptyAvoids(Split(s, ','), ',');
        TrimmedNonEmpty(Split(s, ','))
    case Many(items) => TrimmedNonEmpty(items)
  }

  /** One `andWhere` of the project query. */
  datatype Condition =
    | SkillLike(index: nat, pattern: string)
    | StatusIs(status: string)

  /**
    The conditions `findAll` adds to its query, in order: one AND'ed
    `requiredSkills LIKE %skill%` per parsed skill, parameter `skill<index>`,
    then the status equality when a status is given.
  */
  method QueryConditions(skill: SkillParam, status: Option<string>) returns (conds: seq<Condition>)
    ensures var skills := ParseSkills(skill);
            |conds| == |skills| + (if status.Some? && status.value != "" then 1 else 0) &&
            (forall i :: 0 <= i < |skills| ==> conds[i] == SkillLike(i, "%" + skills[i] + "%")) &&
            (status.Some? && status.value != "" ==> conds[|conds| - 1] == StatusIs(status.value))
  {
    conds := SkillConditions(ParseSkills(skill));
    if status.Some? && status.value != "" {
      conds := conds + [StatusIs(status.value)];
    }
  }

  /** One `LIKE` condition per skill, numbered by the skill's position. */
  method SkillConditions(skills: seq<string>) returns (conds: seq<Condition>)
    ensures |conds| == |skills|
    ensures forall i :: 0 <= i < |skills| ==> conds[i] == SkillLike(i, "%" + skills[i] + "%")
  {
    conds := [];
    var i := 0;
    while i < |skills|
      invariant 0 <= i <= |skills|
      invariant |conds| == i
      invariant forall k :: 0 <= k < i ==> conds[k] == SkillLike(k, "%" + skills[k] + "%")
    {
      conds := conds + [SkillLike(i, "%" + skills[i] + "%")];
      i := i + 1;
    }
  }

  // ------------------------------------------------------------ matching

  /** `s.toLowerCase().trim()`, lower-casing ASCII letters only. */
  function SkillKey(s: string): string {
    Trim(AsciiLower(s))
  }

  /** Lower-casing twice is lower-casing once. */
  lemma AsciiLowerIdempotent(s: string)
    ensures AsciiLower(AsciiLower(s)) == AsciiLower(s)
  {
    var l := AsciiLower(s);
    assert forall i :: 0 <= i < |s| ==> AsciiLower(l)[i] == l[i];
  }

  /** Case does not matter: a skill and its lower-case form have the same key. */
  lemma SkillKeyIgnoresCase(s: string)
    ensures SkillKey(AsciiLower(s)) == SkillKey(s)
  {
    AsciiLowerIdempotent(s);
  }

  /** Some developer skill equals `skill` after lower-casing and trimming. */
  predicate Matches(skill: string, devSkills: seq<string>) {
    exists j :: 0 <= j < |devSkills| && SkillKey(devSkills[j]) == SkillKey(skill)
  }

  /** `xs.filter(keep)` */
  function Keep(xs: seq<string>, keep: string -> bool): (r: seq<string>)
    ensures |r| <= |xs|
  {
    if xs == [] then [] else (if keep(xs[0]) then [xs[0]] else []) + Keep(xs[1..], keep)
  }

  lemma {:induction false} KeepAppend(a: seq<string>, b: seq<string>, keep: string -> bool)
    ensures Keep(a + b, keep) == Keep(a, keep) + Keep(b, keep)
  {
    if a == [] {
      assert a + b == b;
    } else {
      var head := if keep(a[0]) then [a[0]] else [];
      assert (a + b)[0] == a[0];
      assert (a + b)[1..] == a[1..] + b;
      assert Keep(a + b, keep) == head + Keep(a[1..] + b, keep);
      KeepAppend(a[1..], b, keep);
      assert head + (Keep(a[1..], keep) + Keep(b, keep)) == (head + Keep(a[1..], keep)) + Keep(b, keep);
    }
  }

  lemma {:induction false} KeepMembers(xs: seq<string>, keep: string -> bool, x: string)
    ensures x in Keep(xs, keep) <==> x in xs && keep(x)
  {
    if xs != [] {
      KeepMembers(xs[1..], keep, x);
      assert xs == [xs[0]] + xs[1..];
    }
  }

  lemma {:induction false} KeepAll(xs: seq<string>, keep: string -> bool)
    requires forall i :: 0 <= i < |xs| ==> keep(xs[i])
    ensures Keep(xs, keep) == xs
  {
    if xs != [] {
      KeepAll(xs[1..], keep);
      assert xs == [xs[0]] + xs[1..];
    }
  }

  lemma {:induction false} KeepMisses(xs: seq<string>, keep: string -> bool, k: nat)
    requires k < |xs| && !keep(xs[k])
    ensures |Keep(xs, keep)| < |xs|
  {
    if k > 0 {
      assert xs[1..][k - 1] == xs[k];
      KeepMisses(xs[1..], keep, k - 1);
    }
  }

  /** `requiredSkills.filter(skill => devSkills.some(...))` */
  function MatchedSkills(required: seq<string>, devSkills: seq<string>): (r: seq<string>)
    ensures |r| <= |required|
  {
    Keep(required, s => Matches(s, devSkills))
  }

  /** A skill is matched exactly when it is required and some developer skill matches it. */
  lemma MatchedSkillsMembers(required: seq<string>, devSkills: seq<string>, s: string)
    ensures s in MatchedSkills(required, devSkills) <==> s in required && Matches(s, devSkills)
  {
    KeepMembers(required, x => Matches(x, devSkills), s);
  }

  /** The matched skills keep the project's order: matching distributes over concatenation. */
  lemma MatchedSkillsAppend(a: seq<string>, b: seq<string>, devSkills: seq<string>)
    ensures MatchedSkills(a + b, devSkills) == MatchedSkills(a, devSkills) + MatchedSkills(b, devSkills)
  {
    KeepAppend(a, b, s => Matches(s, devSkills));
  }

  /** All required skills are matched exactly when each one is. */
  lemma MatchedSkillsAllIff(required: seq<string>, devSkills: seq<string>)
    ensures MatchedSkills(required, devSkills) == required <==>
            forall i :: 0 <= i < |required| ==> Matches(required[i], devSkills)
  {
    var keep := s => Matches(s, devSkills);
    if forall i :: 0 <= i < |required| ==> Matches(required[i], devSkills) {
      KeepAll(required, keep);
    } else {
      var k :| 0 <= k < |required| && !Matches(required[k], devSkills);
      KeepMisses(required, keep, k);
    }
  }

  // ------------------------------------------------------------ percentage

  /** Facts about `q = (200m + n) / (2n)` for `n > 0`. */
  lemma RoundingBounds(m: nat, n: nat)
    requires n > 0
    ensures var q := (200 * m + n) / (2 * n);
            q >= 0 && 2 * n * q <= 200 * m + n < 2 * n * (q + 1)
  {
    var q := (200 * m + n) / (2 * n);
    var rem := (200 * m + n) % (2 * n);
    assert 2 * n * q + rem == 200 * m + n;
  }

  /**
    `Math.round(matched / required * 100)`, exactly: the integer nearest to
    `100 * matched / required`, halves rounded up; 0 when nothing is required.
    It is at most 100 when no more skills match than are required, 100 when all
    do, and positive exactly when the share is at least half a percent.
  */
  function MatchPercentage(matched: nat, required: nat): (p: nat)
    ensures required == 0 ==> p == 0
    ensures required > 0 ==> 2 * required * p <= 200 * matched + required < 2 * required * (p + 1)
    ensures matched <= required ==> p <= 100
    ensures required > 0 && matched == required ==> p == 100
    ensures required > 0 ==> (p > 0 <==> 200 * matched >= required)
  {
    if required == 0 then 0
    else
      RoundingBounds(matched, required);
      var p := (200 * matched + required) / (2 * required);
      PercentageFacts(matched, required, p);
      p
  }

  lemma PercentageFacts(m: nat, n: nat, p: nat)
    requires n > 0 && 2 * n * p <= 200 * m + n < 2 * n * (p + 1)
    ensures m <= n ==> p <= 100
    ensures m == n ==> p == 100
    ensures p > 0 <==> 200 * m >= n
  {
    if m <= n {
      PercentageAtMostHundred(m, n, p);
    }
    if m == n {
      PercentageAtMostHundred(m, n, p);
      PercentageAtLeastHundred(n, p);
    }
    PercentagePositive(m, n, p);
  }

  lemma PercentageAtMostHundred(m: nat, n: nat, p: nat)
    requires n > 0 && m <= n && 2 * n * p <= 200 * m + n
    ensures p <= 100
  {
    assert 200 * m + n <= 201 * n;
    assert 2 * n * 101 == 202 * n;
    CancelFactor(p, 101, 2 * n);
  }

  lemma PercentageAtLeastHundred(n: nat, p: nat)
    requires n > 0 && 201 * n < 2 * n * (p + 1)
    ensures p >= 100
  {
    assert 2 * n * 100 == 200 * n;
    CancelFactor(100, p + 1, 2 * n);
  }

  lemma PercentagePositive(m: nat, n: nat, p: nat)
    requires n > 0 && 2 * n * p <= 200 * m + n < 2 * n * (p + 1)
    ensures p > 0 <==> 200 * m >= n
  {
    if p > 0 {
      MulAtLeast(2 * n, p);
    } else {
      assert 2 * n * (p + 1) == 2 * n;
    }
  }

  /** `k * a >= k` for `a >= 1` and `k >= 0`. */
  lemma MulAtLeast(k: nat, a: nat)
    requires a >= 1
    ensures k * a >= k
  {
    assert k * a == k + k * (a - 1);
  }

  /** `k * a < k * b` with `k > 0` gives `a < b`. */
  lemma CancelFactor(a: int, b: int, k: int)
    requires k > 0 && k * a < k * b
    ensures a < b
  {
  }

  // ------------------------------------------------------------ scoring

  datatype DeveloperSummary = DeveloperSummary(
    id: string, name: string, skills: seq<string>, experienceLevel: Experience, bio: Option<string>)

  /** One scored developer. */
  datatype Recommendation = Recommendation(developer: DeveloperSummary, matchedSkills: seq<string>, matchPercentage: nat)

  /** A developer scored against the required skills (an absent skill list counts as empty). */
  function Score(required: seq<string>, d: Developer): (r: Recommendation)
    ensures r.matchedSkills == MatchedSkills(required, d.skills.GetOr([]))
    ensures r.matchPercentage == MatchPercentage(|r.matchedSkills|, |required|) && r.matchPercentage <= 100
    ensures r.developer == DeveloperSummary(d.id, d.name, d.skills.GetOr([]), d.experienceLevel, d.bio)
  {
    var devSkills := d.skills.GetOr([]);
    var matched := MatchedSkills(required, devSkills);
    Recommendation(DeveloperSummary(d.id, d.name, devSkills, d.experienceLevel, d.bio), matched,
                   MatchPercentage(|matched|, |required|))
  }

  /** Every developer scored, in the order the repository returned them. */
  function ScoreAll(required: seq<string>, developers: seq<Developer>): (r: seq<Recommendation>)
    ensures |r| == |developers|
    ensures forall i :: 0 <= i < |developers| ==> r[i] == Score(required, developers[i])
  {
    seq(|developers|, i requires 0 <= i < |developers| => Score(required, developers[i]))
  }

  /** `.filter(d => d.matchPercentage > 0)` */
  function Positive(s: seq<Recommendation>): (r: seq<Recommendation>)
    ensures |r| <= |s|
    ensures forall i :: 0 <= i < |r| ==> r[i].matchPercentage > 0
  {
    if s == [] then []
    else (if s[0].matchPercentage > 0 then [s[0]] else []) + Positive(s[1..])
  }

  /** The entries of `s` with percentage `p`, in order. */
  function WithPercentage(s: seq<Recommendation>, p: nat): (r: seq<Recommendation>)
    ensures forall i :: 0 <= i < |r| ==> r[i].matchPercentage == p
  {
    if s == [] then []
    else (if s[0].matchPercentage == p then [s[0]] else []) + WithPercentage(s[1..], p)
  }

  /** Filtering out zeros keeps each positive percentage's entries, in order, and drops the rest. */
  lemma {:induction false} PositiveWithPercentage(s: seq<Recommendation>, p: nat)
    ensures WithPercentage(Positive(s), p) == (if p > 0 then WithPercentage(s, p) else [])
  {
    if s != [] {
      PositiveWithPercentage(s[1..], p);
      var head := if s[0].matchPercentage > 0 then [s[0]] else [];
      WithPercentageAppend(head, Positive(s[1..]), p);
    }
  }

  lemma {:induction false} WithPercentageAppend(a: seq<Recommendation>, b: seq<Recommendation>, p: nat)
    ensures WithPercentage(a + b, p) == WithPercentage(a, p) + WithPercentage(b, p)
  {
    if a == [] {
      assert a + b == b;
    } else {
      assert (a + b)[0] == a[0];
      assert (a + b)[1..] == a[1..] + b;
      WithPercentageAppend(a[1..], b, p);
    }
  }

  /** The zero-score filter drops exactly the zero scores: as a multiset, the positive entries. */
  lemma {:induction false} PositiveMultiset(s: seq<Recommendation>, x: Recommendation)
    ensures multiset(Positive(s))[x] == if x.matchPercentage > 0 then multiset(s)[x] else 0
  {
    if s != [] {
      PositiveMultiset(s[1..], x);
      var head := if s[0].matchPercentage > 0 then [s[0]] else [];
      assert Positive(s) == head + Positive(s[1..]);
      assert multiset(Positive(s)) == multiset(head) + multiset(Positive(s[1..]));
      assert s == [s[0]] + s[1..];
      assert multiset(s) == multiset([s[0]]) + multiset(s[1..]);
    }
  }

  // ------------------------------------------------------------ ranking

  predicate SortedDesc(s: seq<Recommendation>) {
    forall i, j :: 0 <= i < j < |s| ==> s[i].matchPercentage >= s[j].matchPercentage
  }

  /** Place `x` before the first entry whose percentage is not higher than its own. */
  function Insert(x: Recommendation, t: seq<Recommendation>): (r: seq<Recommendation>)
    ensures |r| == |t| + 1
  {
    if t == [] || t[0].matchPercentage <= x.matchPercentage then [x] + t
    else [t[0]] + Insert(x, t[1..])
  }

  /**
    `.sort((a, b) => b.matchPercentage - a.matchPercentage)`: a stable sort
    by non-increasing percentage.
  */
  function SortByPercentage(s: seq<Recommendation>): (r: seq<Recommendation>)
    ensures |r| == |s|
  {
    if s == [] then [] else Insert(s[0], SortByPercentage(s[1..]))
  }

  lemma {:induction false} InsertSorted(x: Recommendation, t: seq<Recommendation>)
    requires SortedDesc(t)
    ensures SortedDesc(Insert(x, t))
    ensures Insert(x, t)[0] == x || Insert(x, t)[0] == t[0]
  {
    if t != [] && t[0].matchPercentage > x.matchPercentage {
      InsertSorted(x, t[1..]);
    }
  }

  lemma {:induction false} InsertMultiset(x: Recommendation, t: seq<Recommendation>)
    ensures multiset(Insert(x, t)) == multiset(t) + multiset{x}
  {
    if t != [] && t[0].matchPercentage > x.matchPercentage {
      InsertMultiset(x, t[1..]);
      assert t == [t[0]] + t[1..];
    }
  }

  /** Inserting `x` puts it first among the entries of its percentage and moves no other entry past another. */
  lemma {:induction false} InsertWithPercentage(x: Recommendation, t: seq<Recommendation>, p: nat)
    ensures WithPercentage(Insert(x, t), p) == (if x.matchPercentage == p then [x] else []) + WithPercentage(t, p)
  {
    if t == [] || t[0].matchPercentage <= x.matchPercentage {
      WithPercentageAppend([x], t, p);
    } else {
      InsertWithPercentage(x, t[1..], p);
      WithPercentageAppend([t[0]], Insert(x, t[1..]), p);
      WithPercentageAppend([t[0]], t[1..], p);
      assert [t[0]] + t[1..] == t;
    }
  }

  /** The ranking is ordered by non-increasing percentage. */
  lemma {:induction false} SortSorted(s: seq<Recommendation>)
    ensures SortedDesc(SortByPercentage(s))
  {
    if s != [] {
      SortSorted(s[1..]);
      InsertSorted(s[0], SortByPercentage(s[1..]));
    }
  }

  /** The ranking is a permutation of its input. */
  lemma {:induction false} SortPermutes(s: seq<Recommendation>)
    ensures multiset(SortByPercentage(s)) == multiset(s)
  {
    if s != [] {
      SortPermutes(s[1..]);
      InsertMultiset(s[0], SortByPercentage(s[1..]));
      assert s == [s[0]] + s[1..];
    }
  }

  /** The ranking is stable: entries with equal percentages keep their relative order. */
  lemma {:induction false} SortStable(s: seq<Recommendation>, p: nat)
    ensures WithPercentage(SortByPercentage(s), p) == WithPercentage(s, p)
  {
    if s != [] {
      SortStable(s[1..], p);
      InsertWithPercentage(s[0], SortByPercentage(s[1..]), p);
    }
  }

  // ------------------------------------------------------------ the recommendation

  /** The developers worth recommending, best first. */
  function Ranked(required: seq<string>, developers: seq<Developer>): seq<Recommendation> {
    SortByPercentage(Positive(ScoreAll(required, developers)))
  }

  /**
    The ranking holds every developer with a positive score and no other, each
    as often as scored, best first, and developers with equal scores in the
    order the repository returned them.
  */
  lemma RankedProperties(required: seq<string>, developers: seq<Developer>)
    ensures var ranked := Ranked(required, developers);
            SortedDesc(ranked) &&
            (forall i :: 0 <= i < |ranked| ==> 0 < ranked[i].matchPercentage <= 100) &&
            (forall x: Recommendation :: multiset(ranked)[x] ==
                         if x.matchPercentage > 0 then multiset(ScoreAll(required, developers))[x] else 0) &&
            (forall p: nat :: p > 0 ==> WithPercentage(ranked, p) == WithPercentage(ScoreAll(required, developers), p))
  {
    var scored := ScoreAll(required, developers);
    SortSorted(Positive(scored));
    RankingCounts(scored);
    RankingInRange(scored);
    RankingStable(scored);
  }

  /** Ranking keeps each positively scored entry as often as it was scored, and no other. */
  lemma RankingCounts(scored: seq<Recommendation>)
    ensures forall x: Recommendation :: multiset(SortByPercentage(Positive(scored)))[x] ==
                                         if x.matchPercentage > 0 then multiset(scored)[x] else 0
  {
    SortPermutes(Positive(scored));
    forall x: Recommendation
      ensures multiset(SortByPercentage(Positive(scored)))[x] == if x.matchPercentage > 0 then multiset(scored)[x] else 0
    {
      PositiveMultiset(scored, x);
    }
  }

  /** Every ranked score is positive and, when every score is at most 100, at most 100. */
  lemma RankingInRange(scored: seq<Recommendation>)
    requires forall i :: 0 <= i < |scored| ==> scored[i].matchPercentage <= 100
    ensures var ranked := SortByPercentage(Positive(scored));
            forall i :: 0 <= i < |ranked| ==> 0 < ranked[i].matchPercentage <= 100
  {
    var ranked := SortByPercentage(Positive(scored));
    RankingCounts(scored);
    forall i | 0 <= i < |ranked| ensures 0 < ranked[i].matchPercentage <= 100 {
      var x := ranked[i];
      assert multiset(ranked)[x] > 0;
      assert x.matchPercentage > 0 && multiset(scored)[x] > 0;
      assert x in scored;
    }
  }

  /** Ranking keeps, among the entries of one positive score, the order they were scored in. */
  lemma RankingStable(scored: seq<Recommendation>)
    ensures forall p: nat :: p > 0 ==> WithPercentage(SortByPercentage(Positive(scored)), p) == WithPercentage(scored, p)
  {
    forall p: nat | p > 0 ensures WithPercentage(SortByPercentage(Positive(scored)), p) == WithPercentage(scored, p) {
      SortStable(Positive(scored), p);
      PositiveWithPercentage(scored, p);
    }
  }

  /** `Array.prototype.slice(start, end)`: negative bounds count from the end, bounds are clamped. */
  function Slice<T>(s: seq<T>, start: int, end: int): (r: seq<T>)
    ensures var from := if start < 0 then Max(|s| + start, 0) else Min(start, |s|);
            var to := if end < 0 then Max(|s| + end, 0) else Min(end, |s|);
            |r| == Max(to - from, 0) && forall k :: 0 <= k < |r| ==> r[k] == s[from + k]
  {
    var from := if start < 0 then Max(|s| + start, 0) else Min(start, |s|);
    var to := if end < 0 then Max(|s| + end, 0) else Min(end, |s|);
    if from < to then s[from..to] else []
  }

  /**
    The recommendations of a found project are the ranking from `skip` on, at
    most `limit` of them.
  */
  lemma RecommendedPage(projectId: string, project: Option<Project>, developers: seq<Developer>,
                        query: PaginationQuery)
    requires project.Some?
    ensures var ranked := Ranked(project.value.requiredSkills.GetOr([]), developers);
            var r := RecommendedDevelopers(projectId, project, developers, query);
            r.Success? && (query.limit >= 0 ==> |r.value.data| <= query.limit) &&
            forall k :: 0 <= k < |r.value.data| ==> query.skip + k < |ranked| && r.value.data[k] == ranked[query.skip + k]
  {
    var ranked := Ranked(project.value.requiredSkills.GetOr([]), developers);
    SliceFrom(ranked, query.skip, query.limit);
  }

  lemma SliceFrom<T>(s: seq<T>, skip: nat, limit: int)
    ensures var page := Slice(s, skip, skip + limit);
            (limit >= 0 ==> |page| <= limit) && forall k :: 0 <= k < |page| ==> skip + k < |s| && page[k] == s[skip + k]
  {
  }

  function Min(a: int, b: int): int { if a < b then a else b }
  function Max(a: int, b: int): int { if a < b then b else a }

  /**
    `getRecommendedDevelopers`: 404 when the project does not exist; otherwise
    the page `ranked[skip .. skip + limit)` of the ranking, with the ranking's
    length as the total.
  */
  function RecommendedDevelopers(projectId: string, project: Option<Project>, developers: seq<Developer>,
                                 query: PaginationQuery): (r: Result<PaginatedResponse<Recommendation>, HttpError>)
    ensures project.None? ==> r == Failure(HttpError(NotFound, ProjectNotFound(projectId)))
    ensures project.Some? ==>
              var ranked := Ranked(project.value.requiredSkills.GetOr([]), developers);
              r.Success? && r.value.meta.totalItems == |ranked| && r.value.meta.itemCount == |r.value.data| &&
              r.value.data == Slice(ranked, query.skip, query.skip + query.limit)
  {
    if project.None? then Failure(HttpError(NotFound, ProjectNotFound(projectId)))
    else
      var ranked := Ranked(project.value.requiredSkills.GetOr([]), developers);
      Success(NewPaginatedResponse(Slice(ranked, query.skip, query.skip + query.limit), |ranked|, query))
  }
}
