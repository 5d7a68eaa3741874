/** Small helpers shared by the components: optional values, the number of
    completed entries of a completion map, JavaScript's `indexOf`, the
    single-open disclosure toggle and substring search. */
module Common {

  datatype Option<+T> = None | Some(value: T)

  /** The set of keys whose entry is `true` (`Object.values(m).filter(Boolean)`
      counts exactly these). */
  function TrueKeys(m: map<string, bool>): (ks: set<string>)
    ensures forall k :: k in ks <==> k in m && m[k]
  {
    set k | k in m && m[k]
  }

  /** True when `id` is marked complete; a missing key reads as `undefined`, which is falsy. */
  predicate IsMarked(m: map<string, bool>, id: string)
  {
    id in m && m[id]
  }

  /** `Object.values(m).filter(Boolean).length` */
  function CountTrue(m: map<string, bool>): nat
  {
    |TrueKeys(m)|
  }

  /** Setting an entry to `true` adds one to the count unless it was already true. */
  lemma CountAfterMark(m: map<string, bool>, id: string)
    ensures CountTrue(m[id := true]) == CountTrue(m) + (if IsMarked(m, id) then 0 else 1)
  {
    var before, after := TrueKeys(m), TrueKeys(m[id := true]);
    if IsMarked(m, id) {
      assert after == before;
    } else {
      assert after == before + {id};
    }
  }

  /** Setting an entry to `false` removes one from the count if it was true. */
  lemma CountAfterUnmark(m: map<string, bool>, id: string)
    ensures CountTrue(m[id := false]) == CountTrue(m) - (if IsMarked(m, id) then 1 else 0)
  {
    var before, after := TrueKeys(m), TrueKeys(m[id := false]);
    if IsMarked(m, id) {
      assert after == before - {id};
    } else {
      assert after == before;
    }
  }

  /** No element is listed twice. */
  predicate NoDuplicates<T(==)>(s: seq<T>)
  {
    forall i, j :: 0 <= i < j < |s| ==> s[i] != s[j]
  }

  /** JavaScript's `findIndex(p)`: the first index whose element satisfies `p`, or -1. */
  function FindIndex<T>(s: seq<T>, p: T -> bool): (r: int)
    ensures -1 <= r < |s|
    ensures r == -1 <==> forall j :: 0 <= j < |s| ==> !p(s[j])
    ensures 0 <= r ==> p(s[r]) && forall j :: 0 <= j < r ==> !p(s[j])
  {
    if |s| == 0 then -1
    else if p(s[0]) then 0
    else
      var r := FindIndex(s[1..], p);
      if r == -1 then -1 else r + 1
  }

  /** JavaScript's `Array.prototype.indexOf` / `findIndex(e => e === x)`:
      the first index holding `x`, or -1. */
  function IndexOf<T(==)>(s: seq<T>, x: T): (r: int)
    ensures -1 <= r < |s|
    ensures r == -1 <==> x !in s
    ensures 0 <= r ==> s[r] == x && forall j :: 0 <= j < r ==> s[j] != x
  {
    FindIndex(s, y => y == x)
  }

  /** `setExpanded(expanded === x ? null : x)`: clicking the open entry closes
      it, clicking any other entry makes it the only open one. */
  function Toggle<T(==)>(current: Option<T>, x: T): (r: Option<T>)
    ensures r == None <==> current == Some(x)
    ensures r != None ==> r == Some(x)
  {
    if current == Some(x) then None else Some(x)
  }

  /** `needle` occurs in `hay` as a contiguous piece. */
  predicate IsInfix<T(==)>(needle: seq<T>, hay: seq<T>)
  {
    exists i :: 0 <= i <= |hay| && needle <= hay[i..]
  }

  /** Concatenation shows its pieces as infixes. */
  lemma InfixOfConcat<T>(a: seq<T>, b: seq<T>, c: seq<T>)
    ensures IsInfix(b, a + b + c)
  {
    var h := a + b + c;
    assert h[|a|..] == b + c;
  }
}
