/** Values that cross the bridge from the native plugin to the JavaScript
    frame processor, and the small sequence helpers both platforms share. */
module Bridge {

  datatype Option<+T> = None | Some(value: T)

  /** What a native callback can hand to JavaScript: Swift's `[String: Any]`
      and `[Any]` on iOS, `WritableNativeMap` and `WritableNativeArray` on
      Android. `Num` is a CGFloat or a Double, `Int` an Android `putInt`. */
  datatype Value =
    | Null
    | Str(s: string)
    | Num(r: real)
    | Int(i: int)
    | Arr(items: seq<Value>)
    | Obj(fields: map<string, Value>)

  /** The longest prefix of `s` whose entries are all present, unwrapped:
      what a loop computes that appends each present entry and `break`s at
      the first missing one. */
  function PrefixUntilNone<T>(s: seq<Option<T>>): (r: seq<T>)
    ensures |r| <= |s|
    ensures forall i :: 0 <= i < |r| ==> s[i] == Some(r[i])
    ensures |r| < |s| ==> s[|r|].None?
  {
    if s == [] || s[0].None? then [] else [s[0].value] + PrefixUntilNone(s[1..])
  }

  /** The three properties above pin the prefix down: any sequence that has
      them is `PrefixUntilNone(s)`. */
  lemma {:induction false} PrefixUntilNoneUnique<T>(s: seq<Option<T>>, r: seq<T>)
    requires |r| <= |s|
    requires forall i :: 0 <= i < |r| ==> s[i] == Some(r[i])
    requires |r| < |s| ==> s[|r|].None?
    ensures r == PrefixUntilNone(s)
  {
    if s != [] && s[0].Some? {
      assert r != [] && r[0] == s[0].value;
      PrefixUntilNoneUnique(s[1..], r[1..]);
    }
  }
}
