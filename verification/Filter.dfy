/** The server-side filter language of pull requests. */
module Filter {
  import opened Core

  datatype CreatedAtFilter = AtGt(t: int) | AtGte(t: int) | AtLt(t: int) | AtLte(t: int)

  datatype Operator =
    | Exists
    | IsNull
    | Eq(v: Json)
    | Ne(v: Json)
    | Gt(v: Json)
    | Gte(v: Json)
    | Lt(v: Json)
    | Lte(v: Json)
    | Contains(v: Json)
    | StartsWith(prefix: string)

  datatype Condition = Condition(path: string, operator: Operator)

  /** A disjunction of conjunctions. */
  type ContentFilter = seq<seq<Condition>>

  datatype PullFilter = PullFilter(
    objectTypes: Option<seq<string>>,
    createdAt: Option<seq<CreatedAtFilter>>,
    content: Option<ContentFilter>)

  const NO_FILTER := PullFilter(None, None, None)

  // ---------------------------------------------------------------------------------------
  // Paths

  function StripPrefix(path: string): string {
    if |path| >= 2 && path[..2] == "$." then path[2..] else path
  }

  /** The pieces between dots; always at least one, possibly empty. */
  function Split(s: string): (keys: seq<string>)
    ensures |keys| >= 1
  {
    if s == "" then [""]
    else
      var rest := Split(s[1..]);
      if s[0] == '.' then [""] + rest else [[s[0]] + rest[0]] + rest[1..]
  }

  function Join(keys: seq<string>): string
    requires |keys| >= 1
  {
    if |keys| == 1 then keys[0] else keys[0] + "." + Join(keys[1..])
  }

  lemma {:induction false} SplitThenJoin(s: string)
    ensures Join(Split(s)) == s
    ensures forall k :: k in Split(s) ==> '.' !in k
  {
    if s != "" {
      SplitThenJoin(s[1..]);
      var rest := Split(s[1..]);
      if s[0] == '.' {
        assert Split(s)[1..] == rest;
      } else {
        assert Split(s)[1..] == rest[1..];
        assert s == [s[0]] + s[1..];
        if |rest| > 1 {
          assert [s[0]] + (rest[0] + "." + Join(rest[1..])) == ([s[0]] + rest[0]) + "." + Join(rest[1..]);
        }
      }
    }
  }

  /** Only objects have members by name. */
  function Member(data: Json, key: string): Option<Json> {
    if data.Object? && key in data.fields then Some(data.fields[key]) else None
  }

  function Walk(data: Json, keys: seq<string>): Option<Json> {
    if keys == [] then Some(data)
    else
      match Member(data, keys[0])
      case None => None
      case Some(v) => Walk(v, keys[1..])
  }

  function Resolve(data: Json, path: string): Option<Json> {
    Walk(data, Split(StripPrefix(path)))
  }

  method ResolvePath(data: Json, path: string) returns (r: Option<Json>)
    ensures r == Resolve(data, path)
  {
    var keys := Split(StripPrefix(path));
    var current := data;
    for i := 0 to |keys|
      invariant Walk(current, keys[i..]) == Walk(data, keys)
    {
      var step := Member(current, keys[i]);
      if step.None? {
        return None;
      }
      current := step.value;
      assert keys[i..][1..] == keys[i + 1..];
    }
    return Some(current);
  }

  // ---------------------------------------------------------------------------------------
  // Comparison

  function CompareStrings(a: string, b: string): (o: int)
    ensures -1 <= o <= 1
  {
    if a == "" then (if b == "" then 0 else -1)
    else if b == "" then 1
    else if a[0] < b[0] then -1
    else if b[0] < a[0] then 1
    else CompareStrings(a[1..], b[1..])
  }

  function Sign(n: int): int {
    if n < 0 then -1 else if n == 0 then 0 else 1
  }

  /** Numbers compare by their approximation, strings character by character, nothing else does. */
  function Compare(a: Json, b: Json): Option<int> {
    match (a, b)
    case (Number(_, x), Number(_, y)) => Some(Sign(x - y))
    case (String(x), String(y)) => Some(CompareStrings(x, y))
    case _ => None
  }

  lemma {:induction false} StringOrder(a: string, b: string)
    ensures CompareStrings(b, a) == -CompareStrings(a, b)
    ensures CompareStrings(a, b) == 0 <==> a == b
  {
    if a != "" && b != "" {
      StringOrder(a[1..], b[1..]);
      assert a == [a[0]] + a[1..] && b == [b[0]] + b[1..];
    }
  }

  lemma {:induction false} StringOrderTransitive(a: string, b: string, c: string)
    requires CompareStrings(a, b) <= 0 && CompareStrings(b, c) <= 0
    ensures CompareStrings(a, c) <= 0
  {
    if a != "" && b != "" && c != "" && a[0] == b[0] == c[0] {
      StringOrderTransitive(a[1..], b[1..], c[1..]);
    }
  }

  predicate Occurs(needle: string, s: string) {
    exists i :: 0 <= i <= |s| && needle <= s[i..]
  }

  predicate JsonContains(data: Json, needle: Json) {
    match data
    case Array(items) => needle in items
    case String(s) => needle.String? && Occurs(needle.s, s)
    case _ => false
  }

  predicate Evaluate(data: Json, c: Condition) {
    var value := Resolve(data, c.path);
    match c.operator
    case Exists => value.Some?
    case IsNull => value == Some(Null)
    case Eq(v) => value == Some(v)
    case Ne(v) => value != Some(v)
    case Gt(v) => value.Some? && Compare(value.value, v).Some? && Compare(value.value, v).value > 0
    case Gte(v) => value.Some? && Compare(value.value, v).Some? && Compare(value.value, v).value >= 0
    case Lt(v) => value.Some? && Compare(value.value, v).Some? && Compare(value.value, v).value < 0
    case Lte(v) => value.Some? && Compare(value.value, v).Some? && Compare(value.value, v).value <= 0
    case Contains(v) => value.Some? && JsonContains(value.value, v)
    case StartsWith(p) => value.Some? && value.value.String? && p <= value.value.s
  }

  predicate AllHold(data: Json, group: seq<Condition>) {
    forall c :: c in group ==> Evaluate(data, c)
  }

  predicate ContentPasses(data: Json, f: ContentFilter) {
    exists g :: g in f && AllHold(data, g)
  }

  predicate CreatedAtPasses(at: int, filters: seq<CreatedAtFilter>) {
    forall f :: f in filters ==>
      match f
      case AtGt(t) => at > t
      case AtGte(t) => at >= t
      case AtLt(t) => at < t
      case AtLte(t) => at <= t
  }

  /** One head against all three kinds of criteria; tombstones pass every content filter. */
  predicate Passes(rev: Revision, f: PullFilter) {
    && (f.objectTypes.Some? ==> rev.objectType in f.objectTypes.value)
    && (f.createdAt.Some? ==> CreatedAtPasses(rev.createdAt, f.createdAt.value))
    && (f.content.Some? && rev.content.Active? ==> ContentPasses(rev.content.data, f.content.value))
  }

  // ---------------------------------------------------------------------------------------
  // Laws

  /** `f` lets through no head that `g` stops. */
  ghost predicate Implies(f: PullFilter, g: PullFilter) {
    forall rev: Revision :: Passes(rev, f) ==> Passes(rev, g)
  }

  /** An additional OR group only widens a content filter. */
  lemma OrGroupWidens(f: PullFilter, groups: ContentFilter, group: seq<Condition>, i: nat)
    requires f.content == Some(groups) && i <= |groups|
    ensures Implies(f, f.(content := Some(groups[..i] + [group] + groups[i..])))
  {
    var wider := groups[..i] + [group] + groups[i..];
    assert forall g :: g in groups ==> g in wider by {
      assert groups == groups[..i] + groups[i..];
    }
    forall rev: Revision | Passes(rev, f)
      ensures Passes(rev, f.(content := Some(wider)))
    {
      if rev.content.Active? {
        var g :| g in groups && AllHold(rev.content.data, g);
        assert g in wider;
      }
    }
  }

  /** An additional AND condition in one group only narrows it. */
  lemma AndConditionNarrows(f: PullFilter, groups: ContentFilter, i: nat, c: Condition)
    requires f.content == Some(groups) && i < |groups|
    ensures Implies(f.(content := Some(groups[i := groups[i] + [c]])), f)
  {
    var narrower := groups[i := groups[i] + [c]];
    forall rev: Revision | Passes(rev, f.(content := Some(narrower)))
      ensures Passes(rev, f)
    {
      if rev.content.Active? {
        var g :| g in narrower && AllHold(rev.content.data, g);
        var k :| 0 <= k < |narrower| && narrower[k] == g;
        if k == i {
          assert forall d :: d in groups[i] ==> d in g;
          assert AllHold(rev.content.data, groups[i]);
        } else {
          assert groups[k] == g;
        }
      }
    }
  }

  /**
    The comparison operators partition the documents in which the path holds something
    comparable, and are all false on the others; Ne is the exact complement of Eq.
   */
  lemma OperatorsPartition(data: Json, path: string, v: Json)
    ensures Evaluate(data, Condition(path, Ne(v))) <==> !Evaluate(data, Condition(path, Eq(v)))
    ensures var value := Resolve(data, path);
            if value.Some? && Compare(value.value, v).Some? then
              && (Evaluate(data, Condition(path, Gt(v))) <==> !Evaluate(data, Condition(path, Lte(v))))
              && (Evaluate(data, Condition(path, Lt(v))) <==> !Evaluate(data, Condition(path, Gte(v))))
              && (Evaluate(data, Condition(path, Gte(v))) && Evaluate(data, Condition(path, Lte(v))) <==>
                  Compare(v, value.value) == Some(0))
            else
              !Evaluate(data, Condition(path, Gt(v))) && !Evaluate(data, Condition(path, Gte(v))) &&
              !Evaluate(data, Condition(path, Lt(v))) && !Evaluate(data, Condition(path, Lte(v)))
  {
    var value := Resolve(data, path);
    if value.Some? && value.value.String? && v.String? {
      StringOrder(value.value.s, v.s);
    }
  }
}
