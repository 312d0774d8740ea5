/** What the filter language means, stated on the documents alone. */
module FilterLaws {
  import opened Core
  import opened Filter

  // ---------------------------------------------------------------------------------------
  // Paths

  lemma {:induction false} SplitPlain(key: string)
    requires '.' !in key
    ensures Split(key) == [key]
  {
    if key != "" {
      SplitPlain(key[1..]);
      assert key == [key[0]] + key[1..];
    }
  }

  lemma {:induction false} SplitCons(key: string, rest: string)
    requires '.' !in key
    ensures Split(key + "." + rest) == [key] + Split(rest)
  {
    var path := key + "." + rest;
    if key == "" {
      assert path[1..] == rest;
    } else {
      SplitCons(key[1..], rest);
      assert path[1..] == key[1..] + "." + rest;
      assert key == [key[0]] + key[1..];
    }
  }

  lemma WalkOne(data: Json, key: string, keys: seq<string>)
    ensures Walk(data, [key] + keys) ==
            if data.Object? && key in data.fields then Walk(data.fields[key], keys) else None
  {
    assert ([key] + keys)[1..] == keys;
  }

  /** A leading "$." makes no difference, unless there is a second one. */
  lemma DollarIsOptional(data: Json, path: string)
    requires !("$." <= path)
    ensures Resolve(data, "$." + path) == Resolve(data, path)
  {
    assert ("$." + path)[2..] == path && ("$." + path)[..2] == "$.";
  }

  /** Only the first "$." is special: a second one is a member named "$". */
  lemma SecondDollarIsAKey(data: Json, path: string)
    ensures Resolve(data, "$.$." + path) ==
            if data.Object? && "$" in data.fields then Walk(data.fields["$"], Split(path)) else None
  {
    var whole := "$.$." + path;
    assert whole[..2] == "$." && whole[2..] == "$" + "." + path;
    SplitCons("$", path);
    WalkOne(data, "$", Split(path));
  }

  /** A path without dots is a member of the object, if it has one by that name. */
  lemma PlainPathIsMember(data: Json, key: string)
    requires '.' !in key
    ensures Resolve(data, key) == if data.Object? && key in data.fields then Some(data.fields[key]) else None
  {
    assert |key| >= 2 ==> key[..2][1] in key;
    assert StripPrefix(key) == key;
    SplitPlain(key);
    WalkOne(data, key, []);
    assert [key] + [] == [key];
  }

  /** A path with a dot goes on in the member named by its first key. */
  lemma DottedPathDescends(data: Json, key: string, rest: string)
    requires '.' !in key && key != "$" && !("$." <= rest)
    ensures Resolve(data, key + "." + rest) ==
            if data.Object? && key in data.fields then Resolve(data.fields[key], rest) else None
  {
    var path := key + "." + rest;
    assert StripPrefix(path) == path by {
      if |path| >= 2 && path[..2] == "$." {
        FirstDot(key, rest);
        assert false;
      }
    }
    SplitCons(key, rest);
    WalkOne(data, key, Split(rest));
  }

  lemma FirstDot(key: string, rest: string)
    requires '.' !in key && "$." <= key + "." + rest
    ensures key == "$"
  {
    var path := key + "." + rest;
    assert path[0] == '$' && path[1] == '.' && path[|key|] == '.';
    assert forall i :: 0 <= i < |key| ==> key[i] == path[i] && key[i] in key;
  }

  // ---------------------------------------------------------------------------------------
  // Operators

  /** The order of strings: a proper prefix, or smaller at the first difference. */
  ghost predicate Before(a: string, b: string) {
    || (a <= b && |a| < |b|)
    || exists i :: 0 <= i < |a| && i < |b| && a[..i] == b[..i] && a[i] < b[i]
  }

  lemma BeforeCons(x: char, a: string, y: char, b: string)
    ensures Before([x] + a, [y] + b) <==> x < y || (x == y && Before(a, b))
  {
    hide Before;
    if x < y || (x == y && Before(a, b)) {
      BeforeOnward(x, a, y, b);
    }
    if Before([x] + a, [y] + b) {
      BeforeBack(x, a, y, b);
    }
  }

  lemma BeforeOnward(x: char, a: string, y: char, b: string)
    requires x < y || (x == y && Before(a, b))
    ensures Before([x] + a, [y] + b)
  {
    var xa, yb := [x] + a, [y] + b;
    if x < y {
      assert xa[..0] == yb[..0] && xa[0] < yb[0];
    } else if i :| 0 <= i < |a| && i < |b| && a[..i] == b[..i] && a[i] < b[i] {
      assert xa[..i + 1] == [x] + a[..i] && yb[..i + 1] == [y] + b[..i];
      assert xa[i + 1] < yb[i + 1];
    }
  }

  lemma BeforeBack(x: char, a: string, y: char, b: string)
    requires Before([x] + a, [y] + b)
    ensures x < y || (x == y && Before(a, b))
  {
    var xa, yb := [x] + a, [y] + b;
    if i :| 0 <= i < |xa| && i < |yb| && xa[..i] == yb[..i] && xa[i] < yb[i] {
      if i > 0 {
        assert x == xa[..i][0] && y == yb[..i][0];
        assert a[..i - 1] == xa[..i][1..] && b[..i - 1] == yb[..i][1..];
        assert a[i - 1] < b[i - 1];
      }
    } else {
      assert x == xa[0] && y == yb[0] && a == xa[1..] && b == yb[1..];
    }
  }

  /** String comparison is the lexicographic order, in the direction of its sign. */
  lemma {:induction false} ComparisonIsLexicographic(a: string, b: string)
    ensures CompareStrings(a, b) < 0 <==> Before(a, b)
    ensures CompareStrings(a, b) > 0 <==> Before(b, a)
    ensures CompareStrings(a, b) == 0 <==> a == b
  {
    StringOrder(a, b);
    if a != "" && b != "" {
      ComparisonIsLexicographic(a[1..], b[1..]);
      assert a == [a[0]] + a[1..] && b == [b[0]] + b[1..];
      BeforeCons(a[0], a[1..], b[0], b[1..]);
      BeforeCons(b[0], b[1..], a[0], a[1..]);
    }
  }

  /** Where the path holds a number, comparing with a number compares the ranks. */
  lemma NumbersCompareByRank(data: Json, path: string, x: Json, y: Json)
    requires Resolve(data, path) == Some(x) && x.Number? && y.Number?
    ensures Evaluate(data, Condition(path, Gt(y))) <==> x.rank > y.rank
    ensures Evaluate(data, Condition(path, Gte(y))) <==> x.rank >= y.rank
    ensures Evaluate(data, Condition(path, Lt(y))) <==> x.rank < y.rank
    ensures Evaluate(data, Condition(path, Lte(y))) <==> x.rank <= y.rank
  {}

  /** Where the path holds a string, comparing with a string compares lexicographically. */
  lemma StringsCompareLexicographically(data: Json, path: string, x: Json, y: Json)
    requires Resolve(data, path) == Some(x) && x.String? && y.String?
    ensures Evaluate(data, Condition(path, Gt(y))) <==> Before(y.s, x.s)
    ensures Evaluate(data, Condition(path, Gte(y))) <==> Before(y.s, x.s) || x.s == y.s
    ensures Evaluate(data, Condition(path, Lt(y))) <==> Before(x.s, y.s)
    ensures Evaluate(data, Condition(path, Lte(y))) <==> Before(x.s, y.s) || x.s == y.s
  {
    ComparisonIsLexicographic(x.s, y.s);
  }

  /** A missing value, or values of other or different kinds, meet no comparison. */
  lemma NothingElseCompares(data: Json, path: string, y: Json)
    requires var x := Resolve(data, path);
             x.Some? ==> !(x.value.Number? && y.Number?) && !(x.value.String? && y.String?)
    ensures !Evaluate(data, Condition(path, Gt(y))) && !Evaluate(data, Condition(path, Gte(y)))
    ensures !Evaluate(data, Condition(path, Lt(y))) && !Evaluate(data, Condition(path, Lte(y)))
  {}

  /** Presence, null and equality; inequality also holds where nothing is there. */
  lemma PresenceAndEquality(data: Json, path: string, v: Json)
    ensures Evaluate(data, Condition(path, Exists)) <==> exists x :: Resolve(data, path) == Some(x)
    ensures Evaluate(data, Condition(path, IsNull)) <==> Resolve(data, path) == Some(Null)
    ensures Evaluate(data, Condition(path, Eq(v))) <==> Resolve(data, path) == Some(v)
    ensures Evaluate(data, Condition(path, Ne(v))) <==>
            Resolve(data, path) == None || exists x :: x != v && Resolve(data, path) == Some(x)
  {}

  /** A string starts with `p` exactly if it is `p` followed by something. */
  lemma StartsWithIsPrefix(data: Json, path: string, p: string)
    ensures Evaluate(data, Condition(path, StartsWith(p))) <==>
            exists rest :: Resolve(data, path) == Some(String(p + rest))
  {
    if Evaluate(data, Condition(path, StartsWith(p))) {
      var s := Resolve(data, path).value.s;
      assert s == p + s[|p|..];
    }
  }

  /** An array contains what is at one of its indices. */
  lemma ArrayContains(data: Json, path: string, items: seq<Json>, v: Json)
    requires Resolve(data, path) == Some(Array(items))
    ensures Evaluate(data, Condition(path, Contains(v))) <==> exists i :: 0 <= i < |items| && items[i] == v
  {}

  /** A string contains what is a slice of it. */
  lemma StringContains(data: Json, path: string, s: string, v: Json)
    requires Resolve(data, path) == Some(String(s))
    ensures Evaluate(data, Condition(path, Contains(v))) <==>
            v.String? && exists i, j :: 0 <= i <= j <= |s| && s[i..j] == v.s
  {
    if v.String? {
      if i, j :| 0 <= i <= j <= |s| && s[i..j] == v.s {
        assert v.s <= s[i..];
      }
      if i :| 0 <= i <= |s| && v.s <= s[i..] {
        assert s[i..i + |v.s|] == v.s;
      }
    }
  }

  lemma NothingElseContains(data: Json, path: string, v: Json)
    requires var x := Resolve(data, path); x.Some? ==> !x.value.Array? && !x.value.String?
    ensures !Evaluate(data, Condition(path, Contains(v)))
  {}

  // ---------------------------------------------------------------------------------------
  // Whole filters

  /** A time passes exactly if it respects every bound, each in its own direction. */
  lemma TimeBounds(at: int, filters: seq<CreatedAtFilter>)
    ensures CreatedAtPasses(at, filters) <==>
            && (forall t :: AtGt(t) in filters ==> t < at)
            && (forall t :: AtGte(t) in filters ==> t <= at)
            && (forall t :: AtLt(t) in filters ==> at < t)
            && (forall t :: AtLte(t) in filters ==> at <= t)
  {}

  /** Every condition of the group holds. */
  ghost predicate GroupHolds(data: Json, group: seq<Condition>) {
    forall j :: 0 <= j < |group| ==> Evaluate(data, group[j])
  }

  lemma SomeGroupHolds(data: Json, groups: ContentFilter)
    ensures ContentPasses(data, groups) <==> exists i :: 0 <= i < |groups| && GroupHolds(data, groups[i])
  {
    hide Evaluate;
    if g :| g in groups && AllHold(data, g) {
      var i :| 0 <= i < |groups| && groups[i] == g;
      assert GroupHolds(data, groups[i]);
    }
    if i :| 0 <= i < |groups| && GroupHolds(data, groups[i]) {
      assert groups[i] in groups && AllHold(data, groups[i]);
    }
  }

  /** A deleted head is only subject to type and time; an active one also to some OR group. */
  lemma HeadPassesExactly(rev: Revision, f: PullFilter)
    ensures Passes(rev, f) <==>
            && (f.objectTypes == None || rev.objectType in f.objectTypes.value)
            && (f.createdAt == None || CreatedAtPasses(rev.createdAt, f.createdAt.value))
            && (f.content == None || rev.content == Deleted
                || exists i :: 0 <= i < |f.content.value| && GroupHolds(rev.content.data, f.content.value[i]))
  {
    hide ContentPasses, GroupHolds, CreatedAtPasses;
    if f.content.Some? && rev.content.Active? {
      SomeGroupHolds(rev.content.data, f.content.value);
    }
  }
}
