/** Sums over the keys of a dictionary. The source adds dictionary entries up in
    insertion order; exact addition does not depend on the order, which is what
    the "take one key out" lemmas say. */
module Sums {

  ghost function SumReal(keys: set<string>, f: string -> real): real
  {
    if keys == {} then 0.0
    else
      var k :| k in keys;
      f(k) + SumReal(keys - {k}, f)
  }

  lemma EmptySum(f: string -> real)
    ensures SumReal({}, f) == 0.0
  {
  }

  /** Any key may be taken out first. */
  lemma {:induction false} TakeReal(keys: set<string>, f: string -> real, k: string)
    requires k in keys
    ensures SumReal(keys, f) == f(k) + SumReal(keys - {k}, f)
    decreases keys
  {
    var c :| c in keys && SumReal(keys, f) == f(c) + SumReal(keys - {c}, f);
    if c != k {
      TakeReal(keys - {c}, f, k);
      TakeReal(keys - {k}, f, c);
      assert keys - {c} - {k} == keys - {k} - {c};
    }
  }

  lemma {:induction false} SameReal(keys: set<string>, f: string -> real, g: string -> real)
    requires forall k :: k in keys ==> f(k) == g(k)
    ensures SumReal(keys, f) == SumReal(keys, g)
    decreases keys
  {
    if keys != {} {
      var k :| k in keys;
      TakeReal(keys, f, k);
      TakeReal(keys, g, k);
      SameReal(keys - {k}, f, g);
    }
  }

  /** Linear combination of two sums over the same keys. */
  lemma {:induction false} AddReal(keys: set<string>, f: string -> real, g: string -> real, h: string -> real)
    requires forall k :: k in keys ==> h(k) == f(k) + g(k)
    ensures SumReal(keys, h) == SumReal(keys, f) + SumReal(keys, g)
    decreases keys
  {
    if keys != {} {
      var k :| k in keys;
      TakeReal(keys, f, k);
      TakeReal(keys, g, k);
      TakeReal(keys, h, k);
      AddReal(keys - {k}, f, g, h);
    }
  }

  /** Changing, adding or removing one key moves the sum by that key's difference. */
  lemma ChangeReal(before: set<string>, f: string -> real, after: set<string>, g: string -> real, k: string)
    requires before + {k} == after + {k}
    requires forall j :: j in before && j != k ==> f(j) == g(j)
    ensures SumReal(after, g) - (if k in after then g(k) else 0.0)
         == SumReal(before, f) - (if k in before then f(k) else 0.0)
  {
    var rest := before - {k};
    assert after - {k} == rest;
    if k in before { TakeReal(before, f, k); } else { assert before == rest; }
    if k in after { TakeReal(after, g, k); } else { assert after == rest; }
    SameReal(rest, f, g);
  }

  ghost function SumInt(keys: set<string>, f: string -> int): int
  {
    if keys == {} then 0
    else
      var k :| k in keys;
      f(k) + SumInt(keys - {k}, f)
  }

  lemma {:induction false} TakeInt(keys: set<string>, f: string -> int, k: string)
    requires k in keys
    ensures SumInt(keys, f) == f(k) + SumInt(keys - {k}, f)
    decreases keys
  {
    var c :| c in keys && SumInt(keys, f) == f(c) + SumInt(keys - {c}, f);
    if c != k {
      TakeInt(keys - {c}, f, k);
      TakeInt(keys - {k}, f, c);
      assert keys - {c} - {k} == keys - {k} - {c};
    }
  }

  lemma {:induction false} SameInt(keys: set<string>, f: string -> int, g: string -> int)
    requires forall k :: k in keys ==> f(k) == g(k)
    ensures SumInt(keys, f) == SumInt(keys, g)
    decreases keys
  {
    if keys != {} {
      var k :| k in keys;
      TakeInt(keys, f, k);
      TakeInt(keys, g, k);
      SameInt(keys - {k}, f, g);
    }
  }

  lemma ChangeInt(before: set<string>, f: string -> int, after: set<string>, g: string -> int, k: string)
    requires before + {k} == after + {k}
    requires forall j :: j in before && j != k ==> f(j) == g(j)
    ensures SumInt(after, g) - (if k in after then g(k) else 0)
         == SumInt(before, f) - (if k in before then f(k) else 0)
  {
    var rest := before - {k};
    assert after - {k} == rest;
    if k in before { TakeInt(before, f, k); } else { assert before == rest; }
    if k in after { TakeInt(after, g, k); } else { assert after == rest; }
    SameInt(rest, f, g);
  }

  lemma {:induction false} AddInt(keys: set<string>, f: string -> int, g: string -> int, h: string -> int)
    requires forall k :: k in keys ==> h(k) == f(k) + g(k)
    ensures SumInt(keys, h) == SumInt(keys, f) + SumInt(keys, g)
    decreases keys
  {
    if keys != {} {
      var k :| k in keys;
      TakeInt(keys, f, k);
      TakeInt(keys, g, k);
      TakeInt(keys, h, k);
      AddInt(keys - {k}, f, g, h);
    }
  }

  /** Keys that count for nothing may be left out. */
  lemma {:induction false} DropZeros(keys: set<string>, kept: set<string>, f: string -> int)
    requires kept <= keys && forall k :: k in keys - kept ==> f(k) == 0
    ensures SumInt(keys, f) == SumInt(kept, f)
    decreases keys
  {
    if keys <= kept {
      assert keys == kept;
    } else {
      var k :| k in keys && k !in kept;
      TakeInt(keys, f, k);
      DropZeros(keys - {k}, kept, f);
    }
  }

  /** Two sets of keys that differ only where nothing counts. */
  lemma SameCounted(a: set<string>, b: set<string>, f: string -> int)
    requires forall k :: k in a - b || k in b - a ==> f(k) == 0
    ensures SumInt(a, f) == SumInt(b, f)
  {
    DropZeros(a, a * b, f);
    DropZeros(b, a * b, f);
  }

  lemma {:induction false} NoneNegative(keys: set<string>, f: string -> int)
    requires forall k :: k in keys ==> f(k) >= 0
    ensures SumInt(keys, f) >= 0
    ensures SumInt(keys, f) == 0 <==> forall k :: k in keys ==> f(k) == 0
    decreases keys
  {
    if keys != {} {
      var k :| k in keys;
      TakeInt(keys, f, k);
      NoneNegative(keys - {k}, f);
    }
  }
}
