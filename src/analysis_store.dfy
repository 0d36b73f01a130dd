/**
 * Storing an analysis (app/ai_analysis/db_operations.py): the per-legislation
 * TTL cache, the version / predecessor computation, the impact enums lookups
 * and the impact ratings written next to each stored analysis.
 */
module AnalysisStore {
  import opened Wrappers
  import opened PyValue
  import opened Errors
  import Text

  // ---------------------------------------------------------------------
  // The analysis cache: legislation id -> (time stored, analysis)
  // ---------------------------------------------------------------------

  /**
   * The cache lookup as a function of the cache contents: an entry is served
   * only while its age in minutes is strictly below the TTL. Time is in whole
   * seconds, so `age / 60 < ttl` is exactly `age < 60 * ttl`.
   */
  function Lookup<A>(entries: map<int, (int, A)>, id: int, now: int, ttlMinutes: int): (r: Option<A>)
    ensures r.Some? <==> id in entries && now - entries[id].0 < 60 * ttlMinutes
    ensures r.Some? ==> r.value == entries[id].1
  {
    if id in entries && now - entries[id].0 < 60 * ttlMinutes then Some(entries[id].1) else None
  }

  /** The cache after a lookup: an expired entry is deleted, a fresh one kept. */
  function AfterLookup<A>(entries: map<int, (int, A)>, id: int, now: int, ttlMinutes: int): (r: map<int, (int, A)>)
    ensures Lookup(entries, id, now, ttlMinutes).Some? ==> r == entries
    ensures Lookup(entries, id, now, ttlMinutes).None? ==> r == entries - {id}
  {
    if Lookup(entries, id, now, ttlMinutes).Some? then entries else entries - {id}
  }

  /** An entry stored at `t` is served at every time `now` with `now - t < 60 * ttl`. */
  lemma {:induction false} StoredThenServed<A>(entries: map<int, (int, A)>, id: int, t: int, a: A, now: int, ttlMinutes: int)
    requires now - t < 60 * ttlMinutes
    ensures Lookup(entries[id := (t, a)], id, now, ttlMinutes) == Some(a)
  {
  }

  /** Storing under one id changes no lookup of another id. */
  lemma {:induction false} StoreIsolated<A>(entries: map<int, (int, A)>, id: int, t: int, a: A, other: int, now: int, ttlMinutes: int)
    requires other != id
    ensures Lookup(entries[id := (t, a)], other, now, ttlMinutes) == Lookup(entries, other, now, ttlMinutes)
  {
  }

  /** After a miss, the next lookup of that id misses too (the entry is gone). */
  lemma {:induction false} MissIsSticky<A>(entries: map<int, (int, A)>, id: int, now: int, later: int, ttlMinutes: int)
    requires Lookup(entries, id, now, ttlMinutes).None?
    ensures Lookup(AfterLookup(entries, id, now, ttlMinutes), id, later, ttlMinutes).None?
  {
  }

  /** `analyzer._analysis_cache` with its TTL. */
  class AnalysisCache<A> {
    var entries: map<int, (int, A)>
    const ttlMinutes: int

    constructor (ttlMinutes: int)
      ensures entries == map[]
      ensures this.ttlMinutes == ttlMinutes
    {
      entries := map[];
      this.ttlMinutes := ttlMinutes;
    }

    /** get_cached_analysis / _check_cache: serve a fresh entry, delete an expired one. */
    method Get(id: int, now: int) returns (r: Option<A>)
      modifies this
      ensures r == Lookup(old(entries), id, now, ttlMinutes)
      ensures entries == AfterLookup(old(entries), id, now, ttlMinutes)
    {
      r := None;
      if id in entries {
        var (t, a) := entries[id];
        if now - t < 60 * ttlMinutes {
          r := Some(a);
        } else {
          entries := entries - {id};
        }
      }
    }

    /** update_analysis_cache and the cache write after a store: one key overwritten with (now, analysis). */
    method Update(id: int, now: int, analysis: A)
      modifies this
      ensures entries == old(entries)[id := (now, analysis)]
    {
      entries := entries[id := (now, analysis)];
    }
  }

  // ---------------------------------------------------------------------
  // Versioning
  // ---------------------------------------------------------------------

  /** An analysis already stored for the legislation: its id and analysis_version (possibly NULL). */
  datatype Existing = Existing(id: int, version: Option<int>)

  /** The version a stored analysis counts with: NULL counts as 0. */
  function VersionOf(x: Existing): int
  {
    x.version.GetOr(0)
  }

  /** max(versions) over a non-empty list. */
  function MaxVersion(xs: seq<Existing>): (m: int)
    requires |xs| > 0
    ensures forall x :: x in xs ==> VersionOf(x) <= m
    ensures exists x :: x in xs && VersionOf(x) == m
  {
    if |xs| == 1 then VersionOf(xs[0])
    else
      var m := MaxVersion(xs[1..]);
      assert forall x :: x in xs[1..] ==> x in xs;
      assert forall x :: x in xs ==> x == xs[0] || x in xs[1..];
      if VersionOf(xs[0]) >= m then VersionOf(xs[0]) else m
  }

  /** The version number of the analysis about to be stored. */
  function NewVersion(xs: seq<Existing>): (v: int)
    ensures forall x :: x in xs ==> VersionOf(x) < v
    ensures xs == [] ==> v == 1
    ensures xs != [] ==> exists x :: x in xs && VersionOf(x) == v - 1
  {
    if xs == [] then 1 else MaxVersion(xs) + 1
  }

  /** The first analysis whose (non-NULL) version equals `m`. */
  function FirstWithVersion(xs: seq<Existing>, m: int): (r: Option<Existing>)
    ensures r.Some? ==> r.value in xs && r.value.version == Some(m)
    ensures r.None? ==> forall x :: x in xs ==> x.version != Some(m)
    ensures r.Some? ==> forall i :: 0 <= i < |xs| && xs[i].version == Some(m) ==> xs[i] == r.value || r.value in xs[..i]
  {
    if xs == [] then None
    else if xs[0].version == Some(m) then Some(xs[0])
    else
      var r := FirstWithVersion(xs[1..], m);
      assert forall x :: x in xs[1..] ==> x in xs;
      assert forall x :: x in xs ==> x == xs[0] || x in xs[1..];
      assert forall i :: 1 <= i <= |xs| ==> xs[1..][..i - 1] == xs[1..i];
      r
  }

  /** previous_version_id: the id of an analysis holding the maximum version, if any. */
  function PreviousVersionId(xs: seq<Existing>): (r: Option<int>)
    ensures xs == [] ==> r.None?
    ensures r.Some? ==> exists x :: x in xs && x.id == r.value && x.version == Some(NewVersion(xs) - 1)
    ensures r.None? ==> forall x :: x in xs ==> x.version != Some(NewVersion(xs) - 1)
  {
    if xs == [] then None
    else
      var p := FirstWithVersion(xs, MaxVersion(xs));
      if p.Some? then Some(p.value.id) else None
  }

  /**
   * The predecessor is missing exactly when the maximum is reached only by
   * NULL versions (all versions NULL, or NULL beside non-positive versions).
   */
  lemma {:induction false} PredecessorMissingOnlyForNullMax(xs: seq<Existing>)
    requires xs != []
    requires PreviousVersionId(xs).None?
    ensures NewVersion(xs) == 1
    ensures exists x :: x in xs && x.version.None?
  {
    var m := MaxVersion(xs);
    var x :| x in xs && VersionOf(x) == m;
    assert x.version != Some(m);
  }

  // ---------------------------------------------------------------------
  // Impact enums and ratings
  // ---------------------------------------------------------------------

  /** ImpactCategoryEnum, in declaration order; each member's name equals its value. */
  datatype ImpactCategory =
    PublicHealth | LocalGov | Economic | Environmental | Education | Infrastructure
    | Healthcare | SocialServices | Justice

  /** ImpactLevelEnum. */
  datatype ImpactLevel = Low | Moderate | High | Critical

  function CategoryName(c: ImpactCategory): string
  {
    match c
    case PublicHealth => "public_health"
    case LocalGov => "local_gov"
    case Economic => "economic"
    case Environmental => "environmental"
    case Education => "education"
    case Infrastructure => "infrastructure"
    case Healthcare => "healthcare"
    case SocialServices => "social_services"
    case Justice => "justice"
  }

  function LevelName(l: ImpactLevel): string
  {
    match l
    case Low => "low"
    case Moderate => "moderate"
    case High => "high"
    case Critical => "critical"
  }

  /** The member named `s`, if any: the inverse of CategoryName. */
  function CategoryFromName(s: string): (r: Option<ImpactCategory>)
    ensures r.Some? ==> CategoryName(r.value) == s
  {
    if s == "public_health" then Some(PublicHealth)
    else if s == "local_gov" then Some(LocalGov)
    else if s == "economic" then Some(Economic)
    else if s == "environmental" then Some(Environmental)
    else if s == "education" then Some(Education)
    else if s == "infrastructure" then Some(Infrastructure)
    else if s == "healthcare" then Some(Healthcare)
    else if s == "social_services" then Some(SocialServices)
    else if s == "justice" then Some(Justice)
    else None
  }

  /** The member named `s`, if any: the inverse of LevelName. */
  function LevelFromName(s: string): (r: Option<ImpactLevel>)
    ensures r.Some? ==> LevelName(r.value) == s
  {
    if s == "low" then Some(Low)
    else if s == "moderate" then Some(Moderate)
    else if s == "high" then Some(High)
    else if s == "critical" then Some(Critical)
    else None
  }

  /** Every member is found by its own name, so a None lookup means no member has that name. */
  lemma {:induction false} CategoryNameRoundTrip(c: ImpactCategory)
    ensures CategoryFromName(CategoryName(c)) == Some(c)
  {
  }

  lemma {:induction false} LevelNameRoundTrip(l: ImpactLevel)
    ensures LevelFromName(LevelName(l)) == Some(l)
  {
  }

  /** ImpactCategoryEnum(v): a lookup by value (each value equals its name); any other value is caught as None. */
  function CategoryByValue(v: Value): (r: Option<ImpactCategory>)
    ensures r.Some? ==> v == PyStr(CategoryName(r.value))
  {
    if v.PyStr? then CategoryFromName(v.s) else None
  }

  function LevelByValue(v: Value): (r: Option<ImpactLevel>)
    ensures r.Some? ==> v == PyStr(LevelName(r.value))
  {
    if v.PyStr? then LevelFromName(v.s) else None
  }

  /**
   * The member whose `name.lower()` equals `name.lower()`; the member names
   * are all lower case, so that is the member named `Lower(name)`.
   */
  function CategoryByName(name: string): (r: Option<ImpactCategory>)
    ensures r.Some? ==> CategoryName(r.value) == Text.Lower(name)
  {
    CategoryFromName(Text.Lower(name))
  }

  function LevelByName(name: string): (r: Option<ImpactLevel>)
    ensures r.Some? ==> LevelName(r.value) == Text.Lower(name)
  {
    LevelFromName(Text.Lower(name))
  }

  /** An ImpactRating row; confidence in hundredths (0.9 is 90). */
  datatype Rating = Rating(
    legislationId: int,
    category: ImpactCategory,
    level: ImpactLevel,
    description: Value,
    affectedEntities: Value,
    confidence: int)

  /** analysis_dict.get(key, {}) narrowed to a dict, or the AttributeError that `.get` on anything else raises. */
  function AsDict(v: Value): (r: Result<seq<(string, Value)>, Error>)
    ensures r.Ok? <==> v.PyDict?
  {
    if v.PyDict? then Ok(v.entries) else Err(AttributeError("object has no attribute 'get'"))
  }

  /** primary_impact_creation: a rating for the impact summary when both strings name enum values. */
  function PrimaryRating(legId: int, summary: seq<(string, Value)>): (r: Option<Rating>)
    ensures r.Some? ==> r.value.confidence == 90
    ensures r.Some? ==> Get(summary, "primary_category") == Some(PyStr(CategoryName(r.value.category)))
    ensures r.Some? ==> Get(summary, "impact_level") == Some(PyStr(LevelName(r.value.level)))
  {
    var c := GetOr(summary, "primary_category", PyNone);
    var l := GetOr(summary, "impact_level", PyNone);
    if Truthy(c) && Truthy(l) then
      var ce := CategoryByValue(c);
      var le := LevelByValue(l);
      if ce.Some? && le.Some? then
        Some(Rating(legId, ce.value, le.value, GetOr(summary, "description", PyStr("")),
                    GetOr(summary, "affected_entities", PyList([])), 90))
      else None
    else None
  }

  /** The six keys of create_impact_ratings' `impact_categories` dict, in its order. */
  datatype CategoryKey =
    PublicHealthKey | LocalGovernmentKey | EconomicKey | EnvironmentalKey | EducationKey | InfrastructureKey

  const CategoryKeys: seq<CategoryKey> :=
    [PublicHealthKey, LocalGovernmentKey, EconomicKey, EnvironmentalKey, EducationKey, InfrastructureKey]

  function KeyName(k: CategoryKey): string
  {
    match k
    case PublicHealthKey => "public_health"
    case LocalGovernmentKey => "local_government"
    case EconomicKey => "economic"
    case EnvironmentalKey => "environmental"
    case EducationKey => "education"
    case InfrastructureKey => "infrastructure"
  }

  /** The `impact_categories` entries: each key with the analysis field it reads (or its default). */
  function CategoryData(d: seq<(string, Value)>): (r: seq<(CategoryKey, Value)>)
    ensures |r| == 6
    ensures forall i :: 0 <= i < 6 ==> r[i].0 == CategoryKeys[i]
  {
    [(PublicHealthKey, GetOr(d, "public_health_impacts", PyDict([]))),
     (LocalGovernmentKey, GetOr(d, "local_government_impacts", PyDict([]))),
     (EconomicKey, GetOr(d, "economic_impacts", PyDict([]))),
     (EnvironmentalKey, GetOr(d, "environmental_impacts", PyList([]))),
     (EducationKey, GetOr(d, "education_impacts", PyList([]))),
     (InfrastructureKey, GetOr(d, "infrastructure_impacts", PyDict([])))]
  }

  /**
   * The category each key is filed under, as written: the member whose
   * `name.lower()` equals the key's. "local_government" matches no member
   * (the member is named local_gov). KeyCategoryMatchesLookup proves this
   * table equal to the name search.
   */
  function KeyCategoryAsWritten(k: CategoryKey): Option<ImpactCategory>
  {
    match k
    case PublicHealthKey => Some(PublicHealth)
    case LocalGovernmentKey => None
    case EconomicKey => Some(Economic)
    case EnvironmentalKey => Some(Environmental)
    case EducationKey => Some(Education)
    case InfrastructureKey => Some(Infrastructure)
  }

  /** The corrected filing: local_government impacts go to the local_gov member. */
  function KeyCategory(k: CategoryKey): (r: Option<ImpactCategory>)
    ensures r.Some?
    ensures k != LocalGovernmentKey ==> r == KeyCategoryAsWritten(k)
  {
    if k == LocalGovernmentKey then Some(LocalGov) else KeyCategoryAsWritten(k)
  }

  lemma {:induction false} LowerOfLowerCase(s: string)
    requires forall i :: 0 <= i < |s| ==> !Text.IsUpperAscii(s[i])
    ensures Text.Lower(s) == s
  {
  }

  /** The as-written table is exactly the case-insensitive name search over the enum. */
  lemma {:induction false} KeyCategoryMatchesLookup(k: CategoryKey)
    ensures KeyCategoryAsWritten(k) == CategoryByName(KeyName(k))
  {
    match k
    case LocalGovernmentKey => NoCategoryOfLength16(Text.Lower(KeyName(k)));
    case PublicHealthKey => LookupLowerName("public_health", PublicHealth);
    case EconomicKey => LookupLowerName("economic", Economic);
    case EnvironmentalKey => LookupLowerName("environmental", Environmental);
    case EducationKey => LookupLowerName("education", Education);
    case InfrastructureKey => LookupLowerName("infrastructure", Infrastructure);
  }

  /** A lower-case member name is found as it stands. */
  lemma {:induction false} LookupLowerName(n: string, c: ImpactCategory)
    requires CategoryFromName(n) == Some(c)
    requires forall i :: 0 <= i < |n| ==> !Text.IsUpperAscii(n[i])
    ensures CategoryByName(n) == Some(c)
  {
    LowerOfLowerCase(n);
  }

  /** No member name has 16 characters, as "local_government" does. */
  lemma {:induction false} NoCategoryOfLength16(s: string)
    requires |s| == 16
    ensures CategoryFromName(s).None?
  {
  }

  /**
   * process_impact_category: a rating when the level is set and both the
   * category (as written, or corrected when `fixed`) and the level are found.
   * A truthy level that is not a string fails in `.lower()`; that
   * AttributeError is not among the caught exceptions.
   */
  function CategoryRating(legId: int, k: CategoryKey, data: Value, fixed: bool): (r: Result<Option<Rating>, Error>)
    ensures r.Ok? && r.value.Some? ==> r.value.value.confidence == 80 && Truthy(ImpactParts(data).0)
    ensures r.Ok? && r.value.Some? ==>
              Some(r.value.value.category) == (if fixed then KeyCategory(k) else KeyCategoryAsWritten(k))
    ensures r.Err? <==> Truthy(ImpactParts(data).0) && !ImpactParts(data).0.PyStr?
  {
    var (level, desc, entities) := ImpactParts(data);
    if !Truthy(level) then Ok(None)
    else if !level.PyStr? then Err(AttributeError("object has no attribute 'lower'"))
    else
      var ce := if fixed then KeyCategory(k) else KeyCategoryAsWritten(k);
      // A list's level is the literal "moderate", found as Moderate (ModerateIsFound).
      var le := if data.PyDict? then LevelByName(level.s) else Some(Moderate);
      if ce.Some? && le.Some? then Ok(Some(Rating(legId, ce.value, le.value, desc, entities, 80)))
      else Ok(None)
  }

  /**
   * The (level, description, affected entities) process_impact_category reads:
   * a dict supplies its own; a non-empty list is rated "moderate" with its
   * items, rendered by str(), joined by newlines; anything else has no level.
   */
  function ImpactParts(data: Value): (Value, Value, Value)
  {
    if data.PyDict? then
      (GetOr(data.entries, "impact_level", PyNone), GetOr(data.entries, "description", PyStr("")),
       GetOr(data.entries, "affected_entities", PyList([])))
    else if data.PyList? && data.items != [] then
      (PyStr("moderate"), PyStr(JoinStr(data.items)), PyList([]))
    else (PyNone, PyStr(""), PyList([]))
  }

  /** The items rendered with str() and joined with "\n". */
  function JoinStr(items: seq<Value>): string
  {
    Text.Join(StrEach(items), "\n")
  }

  function StrEach(items: seq<Value>): (r: seq<string>)
    ensures |r| == |items|
    ensures forall i :: 0 <= i < |items| ==> r[i] == Str(items[i])
  {
    if items == [] then [] else [Str(items[0])] + StrEach(items[1..])
  }

  /** A non-empty list under a filed category is rated "moderate", described by its items. */
  lemma {:induction false} ListRatedModerate(legId: int, k: CategoryKey, items: seq<Value>, fixed: bool)
    requires items != []
    requires (if fixed then KeyCategory(k) else KeyCategoryAsWritten(k)).Some?
    ensures CategoryRating(legId, k, PyList(items), fixed)
         == Ok(Some(Rating(legId, (if fixed then KeyCategory(k) else KeyCategoryAsWritten(k)).value,
                           Moderate, PyStr(JoinStr(items)), PyList([]), 80)))
  {
  }

  /** The level the list branch sets, "moderate", names the Moderate member. */
  lemma {:induction false} ModerateIsFound()
    ensures LevelByName("moderate") == Some(Moderate)
  {
    LowerOfLowerCase("moderate");
  }

  /** The per-category ratings for a prefix of the entries (entries with falsy data skipped). */
  function SecondaryRatings(legId: int, cats: seq<(CategoryKey, Value)>, fixed: bool)
    : (r: Result<seq<Rating>, Error>)
    ensures r.Ok? ==> forall x :: x in r.value ==> x.confidence == 80
    ensures r.Ok? && !fixed ==> forall x :: x in r.value ==> x.category != LocalGov
    ensures r.Err? ==> r.error.AttributeError?
  {
    if cats == [] then Ok([])
    else
      var init := SecondaryRatings(legId, cats[..|cats| - 1], fixed);
      AddRating(legId, init, cats[|cats| - 1].0, cats[|cats| - 1].1, fixed)
  }

  /** One loop step: skip falsy data, stop at an error, append a rating when one is made. */
  function AddRating(legId: int, init: Result<seq<Rating>, Error>, k: CategoryKey, data: Value, fixed: bool)
    : (r: Result<seq<Rating>, Error>)
    requires init.Ok? ==> forall x :: x in init.value ==> x.confidence == 80
    requires init.Ok? && !fixed ==> forall x :: x in init.value ==> x.category != LocalGov
    ensures r.Ok? ==> init.Ok? && forall x :: x in r.value ==> x.confidence == 80
    ensures r.Ok? && !fixed ==> forall x :: x in r.value ==> x.category != LocalGov
    ensures init.Err? ==> r.Err?
    ensures r.Err? ==> r == init || r.error.AttributeError?
  {
    if init.Err? || !Truthy(data) then init
    else
      var one := CategoryRating(legId, k, data, fixed);
      if one.Err? then Err(one.error)
      else if one.value.Some? then Ok(init.value + [one.value.value])
      else init
  }

  /** create_impact_ratings: the primary rating followed by the per-category ones. */
  function ImpactRatingsWith(legId: int, d: seq<(string, Value)>, fixed: bool): (r: Result<seq<Rating>, Error>)
    ensures r.Ok? && !fixed ==> forall i :: 1 <= i < |r.value| ==> r.value[i].category != LocalGov
    ensures r.Err? ==> r.error.AttributeError?
  {
    var summary := AsDict(GetOr(d, "impact_summary", PyDict([])));
    if summary.Err? then Err(summary.error)
    else
      var p := PrimaryRating(legId, summary.value);
      var s := SecondaryRatings(legId, CategoryData(d), fixed);
      if s.Err? then s
      else
        var all := (if p.Some? then [p.value] else []) + s.value;
        assert forall i :: 1 <= i < |all| ==> all[i] in s.value;
        Ok(all)
  }

  /**
   * The ratings as written: whatever local_government_impacts holds, the
   * only local_gov rating possible is the primary one, first in the list.
   */
  function ImpactRatingsAsWritten(legId: int, d: seq<(string, Value)>): (r: Result<seq<Rating>, Error>)
    ensures r.Ok? ==> forall i :: 1 <= i < |r.value| ==> r.value[i].category != LocalGov
  {
    ImpactRatingsWith(legId, d, false)
  }

  /** The ratings with the corrected filing. */
  function ImpactRatings(legId: int, d: seq<(string, Value)>): Result<seq<Rating>, Error>
  {
    ImpactRatingsWith(legId, d, true)
  }

  /** A concrete analysis whose only field is a non-empty list of local-government impacts. */
  const LocalOnly: seq<(string, Value)> := [("local_government_impacts", PyList([PyStr("new reporting duty")]))]

  /** The six category entries of the example: only local_government_impacts is set. */
  lemma {:induction false} LocalOnlyData()
    ensures CategoryData(LocalOnly) ==
              [(PublicHealthKey, PyDict([])), (LocalGovernmentKey, PyList([PyStr("new reporting duty")])),
               (EconomicKey, PyDict([])), (EnvironmentalKey, PyList([])), (EducationKey, PyList([])),
               (InfrastructureKey, PyDict([]))]
    ensures GetOr(LocalOnly, "impact_summary", PyDict([])) == PyDict([])
  {
  }

  /** An entry that adds no rating: falsy data, or data rated as nothing. */
  predicate AddsNothing(legId: int, e: (CategoryKey, Value), fixed: bool)
  {
    !Truthy(e.1) || CategoryRating(legId, e.0, e.1, fixed) == Ok(None)
  }

  /** Entries that add nothing leave the ratings of the entries before them as they were. */
  lemma {:induction false} TailAddsNothing(legId: int, cats: seq<(CategoryKey, Value)>, n: nat, fixed: bool)
    requires n <= |cats|
    requires forall i :: n <= i < |cats| ==> AddsNothing(legId, cats[i], fixed)
    ensures SecondaryRatings(legId, cats, fixed) == SecondaryRatings(legId, cats[..n], fixed)
    decreases |cats|
  {
    if |cats| > n {
      var pre := cats[..|cats| - 1];
      assert forall i :: n <= i < |pre| ==> pre[i] == cats[i];
      TailAddsNothing(legId, pre, n, fixed);
      assert pre[..n] == cats[..n];
    } else {
      assert cats[..n] == cats;
    }
  }

  /** The example has no impact summary, so its ratings are its secondary ones. */
  lemma {:induction false} LocalOnlyRatings(fixed: bool)
    ensures ImpactRatingsWith(7, LocalOnly, fixed) == SecondaryRatings(7, CategoryData(LocalOnly), fixed)
  {
    LocalOnlyData();
    assert PrimaryRating(7, []) == None;
    var s := SecondaryRatings(7, CategoryData(LocalOnly), fixed);
    if s.Ok? {
      assert [] + s.value == s.value;
    }
  }

  /** As written the example yields no rating at all. */
  lemma {:induction false} LocalGovernmentExampleAsWritten()
    ensures ImpactRatingsAsWritten(7, LocalOnly) == Ok([])
  {
    var cats := CategoryData(LocalOnly);
    LocalOnlyData();
    assert CategoryRating(7, LocalGovernmentKey, PyList([PyStr("new reporting duty")]), false) == Ok(None);
    assert forall i :: 0 <= i < |cats| ==> AddsNothing(7, cats[i], false);
    TailAddsNothing(7, cats, 0, false);
    assert cats[..0] == [];
    LocalOnlyRatings(false);
  }

  /** The example's one rating under the corrected filing. */
  const LocalRating := Rating(7, LocalGov, Moderate, PyStr("new reporting duty"), PyList([]), 80)

  /** The first two entries of the example give its one rating. */
  lemma {:induction false} LocalOnlyFirstTwo()
    ensures SecondaryRatings(7, CategoryData(LocalOnly)[..2], true) == Ok([LocalRating])
  {
    var cats := CategoryData(LocalOnly);
    var items := [PyStr("new reporting duty")];
    LocalOnlyData();
    assert JoinStr(items) == "new reporting duty";
    ListRatedModerate(7, LocalGovernmentKey, items, true);
    var c1, c2 := cats[..1], cats[..2];
    assert c1[0] == (PublicHealthKey, PyDict([]));
    TailAddsNothing(7, c1, 0, true);
    assert c1[..0] == [];
    assert c2[..|c2| - 1] == c1 && c2[|c2| - 1] == (LocalGovernmentKey, PyList(items));
    AppendStep(7, c2, true, LocalRating);
    assert [] + [LocalRating] == [LocalRating];
  }

  /** With the corrected filing the example yields one local_gov rating of level moderate. */
  lemma {:induction false} LocalGovernmentExampleCorrected()
    ensures ImpactRatings(7, LocalOnly) == Ok([Rating(7, LocalGov, Moderate, PyStr("new reporting duty"), PyList([]), 80)])
  {
    var cats := CategoryData(LocalOnly);
    LocalOnlyData();
    assert forall i :: 2 <= i < |cats| ==> AddsNothing(7, cats[i], true);
    TailAddsNothing(7, cats, 2, true);
    LocalOnlyFirstTwo();
    LocalOnlyRatings(true);
  }

  /** With the corrected filing a non-empty list of local-government impacts is always rated local_gov. */
  lemma {:induction false} CorrectedRatesLocalGovernment(legId: int, d: seq<(string, Value)>)
    requires Get(d, "local_government_impacts").Some?
    requires Get(d, "local_government_impacts").value.PyList?
    requires Get(d, "local_government_impacts").value.items != []
    ensures ImpactRatings(legId, d).Ok? ==> exists x :: x in ImpactRatings(legId, d).value && x.category == LocalGov
  {
    var cats := CategoryData(d);
    var items := Get(d, "local_government_impacts").value.items;
    assert cats[1] == (LocalGovernmentKey, PyList(items));
    ListRatedModerate(legId, LocalGovernmentKey, items, true);
    var x := Rating(legId, LocalGov, Moderate, PyStr(JoinStr(items)), PyList([]), 80);
    var c2 := cats[..2];
    assert c2[|c2| - 1] == (LocalGovernmentKey, PyList(items));
    LastRatingKept(legId, c2, x);
    var s2 := SecondaryRatings(legId, c2, true);
    if s2.Ok? {
      ContainedInLater(legId, cats, 2, x);
    } else {
      PrefixErrSticks(legId, cats, 2);
    }
  }

  /** When the last entry yields a rating, it is appended to the ratings of the others. */
  lemma {:induction false} AppendStep(legId: int, cats: seq<(CategoryKey, Value)>, fixed: bool, x: Rating)
    requires cats != [] && Truthy(cats[|cats| - 1].1)
    requires CategoryRating(legId, cats[|cats| - 1].0, cats[|cats| - 1].1, fixed) == Ok(Some(x))
    requires SecondaryRatings(legId, cats[..|cats| - 1], fixed).Ok?
    ensures SecondaryRatings(legId, cats, fixed) == Ok(SecondaryRatings(legId, cats[..|cats| - 1], fixed).value + [x])
  {
  }

  /** The rating made for the last entry is in the result. */
  lemma {:induction false} LastRatingKept(legId: int, cats: seq<(CategoryKey, Value)>, x: Rating)
    requires cats != [] && Truthy(cats[|cats| - 1].1)
    requires CategoryRating(legId, cats[|cats| - 1].0, cats[|cats| - 1].1, true) == Ok(Some(x))
    ensures SecondaryRatings(legId, cats, true).Ok? ==> x in SecondaryRatings(legId, cats, true).value
  {
  }

  /** A rating present for a prefix of the entries stays present for every longer prefix. */
  lemma {:induction false} ContainedInLater(legId: int, cats: seq<(CategoryKey, Value)>, k: nat, x: Rating)
    requires k <= |cats|
    requires SecondaryRatings(legId, cats[..k], true).Ok? && x in SecondaryRatings(legId, cats[..k], true).value
    ensures SecondaryRatings(legId, cats, true).Ok? ==> x in SecondaryRatings(legId, cats, true).value
    decreases |cats| - k
  {
    if k == |cats| {
      assert cats[..k] == cats;
    } else {
      assert cats[..k + 1][..k] == cats[..k];
      if SecondaryRatings(legId, cats[..k + 1], true).Ok? {
        ContainedInLater(legId, cats, k + 1, x);
      } else {
        PrefixErrSticks(legId, cats, k + 1);
      }
    }
  }

  /** Once a prefix fails, every longer prefix fails. */
  lemma {:induction false} PrefixErrSticks(legId: int, cats: seq<(CategoryKey, Value)>, k: nat)
    requires k <= |cats|
    requires SecondaryRatings(legId, cats[..k], true).Err?
    ensures SecondaryRatings(legId, cats, true) == SecondaryRatings(legId, cats[..k], true)
    decreases |cats| - k
  {
    if k == |cats| {
      assert cats[..k] == cats;
    } else {
      assert cats[..k + 1][..k] == cats[..k];
      PrefixErrSticks(legId, cats, k + 1);
    }
  }

  /** create_impact_ratings' loop: visit the categories in order, skipping falsy ones. */
  method RateCategories(legId: int, cats: seq<(CategoryKey, Value)>) returns (r: Result<seq<Rating>, Error>)
    ensures r == SecondaryRatings(legId, cats, true)
  {
    var rows: seq<Rating> := [];
    var i := 0;
    while i < |cats|
      invariant 0 <= i <= |cats|
      invariant SecondaryRatings(legId, cats[..i], true) == Ok(rows)
    {
      assert cats[..i + 1][..i] == cats[..i];
      var (k, data) := cats[i];
      if Truthy(data) {
        var one := CategoryRating(legId, k, data, true);
        if one.Err? {
          PrefixErrSticks(legId, cats, i + 1);
          return Err(one.error);
        }
        if one.value.Some? {
          rows := rows + [one.value.value];
        }
      }
      i := i + 1;
    }
    assert cats[..i] == cats;
    r := Ok(rows);
  }

  /** create_impact_ratings: the primary rating, then the loop over the six categories. */
  method CreateImpactRatings(legId: int, d: seq<(string, Value)>) returns (r: Result<seq<Rating>, Error>)
    ensures r == ImpactRatings(legId, d)
  {
    var summary := AsDict(GetOr(d, "impact_summary", PyDict([])));
    if summary.Err? {
      return Err(summary.error);
    }
    var p := PrimaryRating(legId, summary.value);
    var rows: seq<Rating> := if p.Some? then [p.value] else [];
    var s := RateCategories(legId, CategoryData(d));
    if s.Err? {
      return s;
    }
    r := Ok(rows + s.value);
  }

  // ---------------------------------------------------------------------
  // The stored analysis row
  // ---------------------------------------------------------------------

  /** The LegislationAnalysis fields filled from the analysis dict. */
  datatype StoredAnalysis = StoredAnalysis(
    legislationId: int,
    version: int,
    previousVersionId: Option<int>,
    summary: Value,
    keyPoints: Value,
    insufficientText: Value,
    publicHealthImpacts: Value,
    localGovImpacts: Value,
    economicImpacts: Value,
    environmentalImpacts: Value,
    educationImpacts: Value,
    infrastructureImpacts: Value,
    recommendedActions: Value,
    immediateActions: Value,
    resourceNeeds: Value,
    modelVersion: string,
    impactCategory: Option<ImpactCategory>,
    impact: Option<ImpactLevel>)

  const EmptyAnalysis := "Cannot store empty analysis data"

  /**
   * The exception an empty analysis dict raises.  As written the code calls
   * pydantic's ValidationError with one message; pydantic 2 gives that class
   * no public constructor, so the call itself raises TypeError.  Corrected,
   * the validation error with the message is raised.
   */
  function EmptyAnalysisError(fixed: bool): Error
  {
    if fixed then OtherError("ValidationError", EmptyAnalysis)
    else OtherError("TypeError", "No constructor defined")
  }

  /**
   * store_legislation_analysis: an empty dict is rejected before anything is
   * read; the version is one above every stored version; unrecognised impact
   * strings leave the enum columns unset; the ratings are written with it.
   * As written (fixed false) the rejection is the TypeError and the ratings
   * are filed as written; corrected (fixed true) the rejection is the
   * ValidationError and local_gov is matched.
   */
  function StoreAnalysis(legId: int, d: seq<(string, Value)>, existing: seq<Existing>, modelName: string, fixed: bool)
    : (r: Result<(StoredAnalysis, seq<Rating>), Error>)
    ensures r.Err? <==> d == [] || ImpactRatingsWith(legId, d, fixed).Err?
    ensures d == [] ==> r == Err(EmptyAnalysisError(fixed))
    ensures d != [] && r.Err? ==> r.error.AttributeError?
    ensures r.Ok? ==> r.value.0.version == NewVersion(existing)
    ensures r.Ok? ==> forall x :: x in existing ==> VersionOf(x) < r.value.0.version
    ensures r.Ok? ==> Ok(r.value.1) == ImpactRatingsWith(legId, d, fixed)
    ensures r.Ok? && !fixed ==> forall i :: 1 <= i < |r.value.1| ==> r.value.1[i].category != LocalGov
    ensures r.Ok? ==> r.value.0.legislationId == legId && r.value.0.modelVersion == modelName
    ensures r.Ok? ==> r.value.0.previousVersionId == PreviousVersionId(existing)
    ensures r.Ok? && Get(d, "insufficient_text").None? ==> r.value.0.insufficientText == PyBool(false)
    ensures r.Ok? && Get(d, "insufficient_text").Some? ==> r.value.0.insufficientText == Get(d, "insufficient_text").value
  {
    if d == [] then Err(EmptyAnalysisError(fixed))
    else
      var summary := AsDict(GetOr(d, "impact_summary", PyDict([])));
      if summary.Err? then Err(summary.error)
      else
        var ratings := ImpactRatingsWith(legId, d, fixed);
        if ratings.Err? then Err(ratings.error)
        else
          var row := StoredAnalysis(
            legId, NewVersion(existing), PreviousVersionId(existing),
            GetOr(d, "summary", PyStr("")), GetOr(d, "key_points", PyList([])),
            GetOr(d, "insufficient_text", PyBool(false)),
            GetOr(d, "public_health_impacts", PyDict([])), GetOr(d, "local_government_impacts", PyDict([])),
            GetOr(d, "economic_impacts", PyDict([])), GetOr(d, "environmental_impacts", PyList([])),
            GetOr(d, "education_impacts", PyList([])), GetOr(d, "infrastructure_impacts", PyList([])),
            GetOr(d, "recommended_actions", PyList([])), GetOr(d, "immediate_actions", PyList([])),
            GetOr(d, "resource_needs", PyList([])), modelName,
            CategoryByValue(GetOr(summary.value, "primary_category", PyNone)),
            LevelByValue(GetOr(summary.value, "impact_level", PyNone)));
          Ok((row, ratings.value))
  }

  /** As written, an empty dict never reaches the ValidationError: constructing it raises TypeError. */
  lemma {:induction false} EmptyAnalysisAsWritten(legId: int, existing: seq<Existing>, modelName: string)
    ensures StoreAnalysis(legId, [], existing, modelName, false).Err?
    ensures StoreAnalysis(legId, [], existing, modelName, false).error.OtherError?
    ensures StoreAnalysis(legId, [], existing, modelName, false).error.kind == "TypeError"
  {
  }

  /** Corrected, an empty dict is refused with a ValidationError naming the empty data, and only an empty dict is. */
  lemma {:induction false} EmptyAnalysisCorrected(legId: int, d: seq<(string, Value)>, existing: seq<Existing>, modelName: string)
    ensures StoreAnalysis(legId, d, existing, modelName, true) == Err(OtherError("ValidationError", EmptyAnalysis))
        <==> d == []
  {
  }

  /** Storing again (the first row now among the existing ones) yields the next version, linked to the first. */
  lemma {:induction false} StoreTwiceChains(legId: int, d: seq<(string, Value)>, modelName: string, firstId: int, fixed: bool)
    requires StoreAnalysis(legId, d, [], modelName, fixed).Ok?
    ensures StoreAnalysis(legId, d, [Existing(firstId, Some(1))], modelName, fixed).Ok?
    ensures StoreAnalysis(legId, d, [Existing(firstId, Some(1))], modelName, fixed).value.0.version == 2
    ensures StoreAnalysis(legId, d, [Existing(firstId, Some(1))], modelName, fixed).value.0.previousVersionId == Some(firstId)
  {
    assert StoreAnalysis(legId, d, [], modelName, fixed).value.0.version == 1;
  }
}
