/**
 * The input document schema of src/validation/schemas.ts: an object with five
 * required keys, each an array of strings matching `^\d{4}-\d{2}-\d{2}$`.
 * Parsing follows the schema library's default object mode: every declared
 * key is checked, every problem is reported with its path, and keys the
 * schema does not declare are dropped from the result.
 */
module Schemas {
  import opened Wrappers
  import opened DateFormat

  /** The document as `JSON.parse` hands it over (numbers kept as integers). */
  datatype Json =
    | JNull
    | JBool(b: bool)
    | JNumber(n: int)
    | JString(s: string)
    | JArray(items: seq<Json>)
    | JObject(members: map<string, Json>)

  /** The waste categories, in the order the schema declares them. */
  datatype Category = MetalsAndPlastics | Paper | Glass | Bio | Mixed

  const Categories: seq<Category> := [MetalsAndPlastics, Paper, Glass, Bio, Mixed]

  function Key(c: Category): string {
    match c
    case MetalsAndPlastics => "metals_and_plastics"
    case Paper => "paper"
    case Glass => "glass"
    case Bio => "bio"
    case Mixed => "mixed"
  }

  /** A validated document: the date strings of each category, in input order. */
  datatype WasteCalendar = WasteCalendar(
    metalsAndPlastics: seq<string>,
    paper: seq<string>,
    glass: seq<string>,
    bio: seq<string>,
    mixed: seq<string>)

  function Dates(cal: WasteCalendar, c: Category): seq<string> {
    match c
    case MetalsAndPlastics => cal.metalsAndPlastics
    case Paper => cal.paper
    case Glass => cal.glass
    case Bio => cal.bio
    case Mixed => cal.mixed
  }

  /** One segment of an issue's path: an object key or an array index. */
  datatype PathSegment = KeySegment(key: string) | IndexSegment(index: nat)

  datatype IssueKind =
    | ExpectedObject    // the document itself is not an object
    | Required          // a declared key is missing
    | ExpectedArray     // a declared key holds something other than an array
    | ExpectedString    // an array element is not a string
    | BadDateFormat     // a string does not match the date pattern

  datatype Issue = Issue(path: seq<PathSegment>, kind: IssueKind)

  predicate IsDateString(v: Json) {
    v.JString? && IsDateShaped(v.s)
  }

  predicate IsDateArray(v: Json) {
    v.JArray? && forall i :: 0 <= i < |v.items| ==> IsDateString(v.items[i])
  }

  /** The key of category `c` is present and holds an array of date strings. */
  predicate ListedAt(members: map<string, Json>, c: Category) {
    Key(c) in members && IsDateArray(members[Key(c)])
  }

  /** What the schema accepts: an object whose five keys all hold date arrays. */
  predicate Conforms(doc: Json) {
    doc.JObject? && forall c :: ListedAt(doc.members, c)
  }

  /** The issue one array element raises, if any. */
  function ElementIssue(key: string, i: nat, v: Json): seq<Issue> {
    if !v.JString? then [Issue([KeySegment(key), IndexSegment(i)], ExpectedString)]
    else if !IsDateShaped(v.s) then [Issue([KeySegment(key), IndexSegment(i)], BadDateFormat)]
    else []
  }

  /** The issues of elements `from` onwards, in index order. */
  function ElementIssues(key: string, items: seq<Json>, from: nat): (r: seq<Issue>)
    requires from <= |items|
    decreases |items| - from
    ensures r == [] <==> forall i :: from <= i < |items| ==> IsDateString(items[i])
    ensures forall k :: 0 <= k < |r| ==>
      exists i :: from <= i < |items| && !IsDateString(items[i]) && r[k].path == [KeySegment(key), IndexSegment(i)]
  {
    if from == |items| then []
    else
      var rest := ElementIssues(key, items, from + 1);
      var here := ElementIssue(key, from, items[from]);
      assert forall k :: 0 <= k < |here| ==> here[k].path == [KeySegment(key), IndexSegment(from)];
      here + rest
  }

  /** The strings of an array whose elements are all date strings. */
  function Strings(items: seq<Json>): (r: seq<string>)
    requires forall i :: 0 <= i < |items| ==> IsDateString(items[i])
    ensures |r| == |items| && forall i :: 0 <= i < |r| ==> items[i] == JString(r[i])
  {
    if items == [] then []
    else
      assert IsDateString(items[0]);
      [items[0].s] + Strings(items[1..])
  }

  /** `z.array(dateStringSchema)` applied to the value under one declared key. */
  function DateList(members: map<string, Json>, c: Category): (r: Result<seq<string>, seq<Issue>>)
    ensures r.Ok? <==> ListedAt(members, c)
    ensures r.Err? ==> r.error != []
  {
    var key := Key(c);
    if key !in members then Err([Issue([KeySegment(key)], Required)])
    else
      match members[key]
      case JArray(items) =>
        var issues := ElementIssues(key, items, 0);
        if issues == [] then Ok(Strings(items)) else Err(issues)
      case _ => Err([Issue([KeySegment(key)], ExpectedArray)])
  }

  /** An accepted list holds the array's strings, unchanged and in order. */
  lemma DateListKeepsStrings(members: map<string, Json>, c: Category)
    requires DateList(members, c).Ok?
    ensures |DateList(members, c).value| == |members[Key(c)].items|
    ensures forall i :: 0 <= i < |members[Key(c)].items| ==>
      members[Key(c)].items[i] == JString(DateList(members, c).value[i])
  {
  }

  /** A rejected list reports its issues under its own key. */
  lemma DateListIssuePaths(members: map<string, Json>, c: Category)
    requires DateList(members, c).Err?
    ensures forall k :: 0 <= k < |DateList(members, c).error| ==>
      DateList(members, c).error[k].path != [] && DateList(members, c).error[k].path[0] == KeySegment(Key(c))
  {
  }

  function IssuesOf(r: Result<seq<string>, seq<Issue>>): seq<Issue> {
    if r.Err? then r.error else []
  }

  /**
   * `wasteCalendarSchema.parse`: the five date lists when the document
   * conforms, otherwise every issue found, key by key in declared order.
   */
  function Parse(doc: Json): (r: Result<WasteCalendar, seq<Issue>>)
    ensures r.Ok? <==> Conforms(doc)
    ensures r.Ok? ==> forall c :: DateList(doc.members, c) == Ok(Dates(r.value, c))
    ensures r.Err? ==> r.error != []
  {
    match doc
    case JObject(members) =>
      var mp := DateList(members, MetalsAndPlastics);
      var pa := DateList(members, Paper);
      var gl := DateList(members, Glass);
      var bi := DateList(members, Bio);
      var mx := DateList(members, Mixed);
      if mp.Ok? && pa.Ok? && gl.Ok? && bi.Ok? && mx.Ok? then
        Ok(WasteCalendar(mp.value, pa.value, gl.value, bi.value, mx.value))
      else
        Err(IssuesOf(mp) + IssuesOf(pa) + IssuesOf(gl) + IssuesOf(bi) + IssuesOf(mx))
    case _ => Err([Issue([], ExpectedObject)])
  }

  // ---------------------------------------------------------------------------
  // Properties of the schema.

  /** Every offending element is reported, at its own index. */
  lemma {:induction false} ElementIssuesReportsEvery(key: string, items: seq<Json>, from: nat, i: nat)
    requires from <= i < |items| && !IsDateString(items[i])
    ensures exists k :: 0 <= k < |ElementIssues(key, items, from)|
                        && ElementIssues(key, items, from)[k].path == [KeySegment(key), IndexSegment(i)]
    decreases i - from
  {
    var here := ElementIssue(key, from, items[from]);
    var r := ElementIssues(key, items, from);
    assert r == here + ElementIssues(key, items, from + 1);
    if i == from {
      assert r[0] == here[0];
    } else {
      ElementIssuesReportsEvery(key, items, from + 1, i);
      var k :| 0 <= k < |ElementIssues(key, items, from + 1)|
               && ElementIssues(key, items, from + 1)[k].path == [KeySegment(key), IndexSegment(i)];
      assert r[|here| + k] == ElementIssues(key, items, from + 1)[k];
    }
  }

  /**
   * A rejected object reports the issues of every declared key that fails,
   * not only the first, and nothing else.
   */
  lemma ParseReportsEveryIssue(members: map<string, Json>)
    requires Parse(JObject(members)).Err?
    ensures forall c, x :: DateList(members, c).Err? && x in DateList(members, c).error ==> x in Parse(JObject(members)).error
    ensures forall x :: x in Parse(JObject(members)).error ==>
      exists c :: DateList(members, c).Err? && x in DateList(members, c).error
  {
    var mp := DateList(members, MetalsAndPlastics);
    var pa := DateList(members, Paper);
    var gl := DateList(members, Glass);
    var bi := DateList(members, Bio);
    var mx := DateList(members, Mixed);
    var all := IssuesOf(mp) + IssuesOf(pa) + IssuesOf(gl) + IssuesOf(bi) + IssuesOf(mx);
    assert Parse(JObject(members)).error == all;
    forall c, x | DateList(members, c).Err? && x in DateList(members, c).error
      ensures x in all
    {
      match c
      case MetalsAndPlastics => assert x in IssuesOf(mp);
      case Paper => assert x in IssuesOf(pa);
      case Glass => assert x in IssuesOf(gl);
      case Bio => assert x in IssuesOf(bi);
      case Mixed => assert x in IssuesOf(mx);
    }
    forall x | x in all
      ensures exists c :: DateList(members, c).Err? && x in DateList(members, c).error
    {
      if x in IssuesOf(mp) { assert DateList(members, MetalsAndPlastics).Err?; }
      else if x in IssuesOf(pa) { assert DateList(members, Paper).Err?; }
      else if x in IssuesOf(gl) { assert DateList(members, Glass).Err?; }
      else if x in IssuesOf(bi) { assert DateList(members, Bio).Err?; }
      else { assert x in IssuesOf(mx) && DateList(members, Mixed).Err?; }
    }
  }

  /** A list of strings as a JSON array of strings. */
  function ToJsonArray(ds: seq<string>): (v: Json)
    ensures v.JArray? && |v.items| == |ds| && forall i :: 0 <= i < |ds| ==> v.items[i] == JString(ds[i])
  {
    JArray(seq(|ds|, i requires 0 <= i < |ds| => JString(ds[i])))
  }

  /** The document a calendar serialises to: the five keys, each an array of strings. */
  function ToJson(cal: WasteCalendar): Json {
    JObject(map[
      Key(MetalsAndPlastics) := ToJsonArray(cal.metalsAndPlastics),
      Key(Paper) := ToJsonArray(cal.paper),
      Key(Glass) := ToJsonArray(cal.glass),
      Key(Bio) := ToJsonArray(cal.bio),
      Key(Mixed) := ToJsonArray(cal.mixed)])
  }

  predicate AllDateShaped(cal: WasteCalendar) {
    forall c, i :: 0 <= i < |Dates(cal, c)| ==> IsDateShaped(Dates(cal, c)[i])
  }

  /** A date array written out from a list reads back as that list. */
  lemma DateListToJsonArray(members: map<string, Json>, c: Category, ds: seq<string>)
    requires Key(c) in members && members[Key(c)] == ToJsonArray(ds)
    requires forall i :: 0 <= i < |ds| ==> IsDateShaped(ds[i])
    ensures DateList(members, c) == Ok(ds)
  {
    var r := DateList(members, c);
    assert r.Ok?;
    DateListKeepsStrings(members, c);
    assert |r.value| == |ds|;
    assert forall i :: 0 <= i < |ds| ==> r.value[i] == ds[i];
    assert r.value == ds;
  }

  /** Serialising a calendar of date-shaped strings and parsing it back gives the calendar. */
  lemma ParseToJson(cal: WasteCalendar)
    requires AllDateShaped(cal)
    ensures Parse(ToJson(cal)) == Ok(cal)
  {
    var members := ToJson(cal).members;
    DateListToJsonArray(members, MetalsAndPlastics, Dates(cal, MetalsAndPlastics));
    DateListToJsonArray(members, Paper, Dates(cal, Paper));
    DateListToJsonArray(members, Glass, Dates(cal, Glass));
    DateListToJsonArray(members, Bio, Dates(cal, Bio));
    DateListToJsonArray(members, Mixed, Dates(cal, Mixed));
  }

  /** Keys the schema does not declare change nothing: they are stripped, not rejected. */
  lemma ParseIgnoresUnknownKeys(members: map<string, Json>, k: string, v: Json)
    requires forall c :: k != Key(c)
    ensures Parse(JObject(members[k := v])) == Parse(JObject(members))
  {
    forall c: Category ensures DateList(members[k := v], c) == DateList(members, c) {
      assert k != Key(c);
    }
  }

  /** A missing category key is rejected with a `Required` issue at that key. */
  lemma MissingKeyRejected(members: map<string, Json>, c: Category)
    requires Key(c) !in members
    ensures Parse(JObject(members)).Err?
    ensures Issue([KeySegment(Key(c))], Required) in Parse(JObject(members)).error
  {
    assert DateList(members, c) == Err([Issue([KeySegment(Key(c))], Required)]);
  }

  /** Every array may be empty. */
  lemma EmptyListsAccepted(members: map<string, Json>)
    requires forall c :: Key(c) in members && members[Key(c)] == JArray([])
    ensures Parse(JObject(members)) == Ok(WasteCalendar([], [], [], [], []))
  {
  }

  /** The pattern checks shape only: `2024-13-01` and `2024-02-30` pass it. */
  lemma PatternIsLexicalOnly()
    ensures IsDateShaped("2024-13-01") && IsDateShaped("2024-02-30")
    ensures !IsDateShaped("2024-1-01") && !IsDateShaped("2024-01-01 ") && !IsDateShaped("x2024-01-01")
  {
  }
}
