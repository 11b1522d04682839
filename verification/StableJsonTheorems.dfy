/** When two values have the same canonical text, and when key order can show through it. */
module StableJsonTheorems {
  import opened Sorting
  import opened StableJson
  import opened StableJsonReader

  // ----- the printer is the source's printer

  lemma {:induction false} InsertEntryCommutes(le: (string, string) -> bool, e: Entry, es: seq<Entry>)
    ensures Insert(ByKey(le), Entry(e.key, Canonical(le, e.value)), CanonicalEntries(le, es)) ==
            CanonicalEntries(le, Insert(ByKey(le), e, es))
  {
    if es != [] && !le(e.key, es[0].key) {
      InsertEntryCommutes(le, e, es[1..]);
    } else {
      assert ([e] + es)[1..] == es;
    }
  }

  lemma {:induction false} SortEntriesCommutes(le: (string, string) -> bool, es: seq<Entry>)
    ensures StableSort(ByKey(le), CanonicalEntries(le, es)) == CanonicalEntries(le, StableSort(ByKey(le), es))
  {
    if es != [] {
      SortEntriesCommutes(le, es[1..]);
      InsertEntryCommutes(le, es[0], StableSort(ByKey(le), es[1..]));
    }
  }

  /** Text of each entry in turn, joined by commas: the `map(...).join(',')` of the source. */
  function JoinedEntries(le: (string, string) -> bool, es: seq<Entry>): string {
    if es == [] then ""
    else
      var first := Quote(es[0].key) + ":" + StableStringify(le, es[0].value);
      if |es| == 1 then first else first + "," + JoinedEntries(le, es[1..])
  }

  lemma {:induction false} JoinedEntriesPrint(le: (string, string) -> bool, es: seq<Entry>)
    ensures PrintEntries(CanonicalEntries(le, es)) == JoinedEntries(le, es)
  {
    if |es| > 1 {
      JoinedEntriesPrint(le, es[1..]);
    }
  }

  /** An object prints as its entries, sorted by key first and printed one by one after. */
  lemma {:induction false} ObjectText(le: (string, string) -> bool, es: seq<Entry>)
    ensures StableStringify(le, Obj(es)) == "{" + JoinedEntries(le, StableSort(ByKey(le), es)) + "}"
  {
    SortEntriesCommutes(le, es);
    JoinedEntriesPrint(le, StableSort(ByKey(le), es));
  }

  /** The text of an array, letter by letter: an undefined element is left empty. */
  lemma ItemsSample(n: NumberToken)
    requires n == "-1.5"
    ensures PrintItems([Null, Undefined, Bool(true), Number(n)]) == "null,,true,-1.5"
  {
    var items := [Null, Undefined, Bool(true), Number(n)];
    assert items[1..] == [Undefined, Bool(true), Number(n)];
    assert items[1..][1..] == [Bool(true), Number(n)] && items[1..][1..][1..] == [Number(n)];
    assert PrintItems([Number(n)]) == "-1.5";
    assert PrintItems([Bool(true), Number(n)]) == "true,-1.5";
    assert PrintItems(items[1..]) == ",true,-1.5";
  }

  /** The text of strings, letter by letter. */
  lemma EscapeSample()
    ensures Quote("x\"\n") == "\"x\\\"\\n\"" && Quote("a") == "\"a\"" && Quote("b") == "\"b\""
  {
    var s := "x\"\n";
    assert s[1..] == "\"\n" && s[1..][1..] == "\n" && s[1..][1..][1..] == "";
    assert Escape("\n") == "\\n";
    assert Escape("\"\n") == "\\\"\\n";
    assert "a"[1..] == "" && "b"[1..] == "";
  }

  // ----- unique readability

  lemma {:induction false} PrintErased(v: Json)
    ensures Print(Erase(v)) == Print(v)
    decreases v, 0
  {
    match v
    case Arr(items) => if items != [Undefined] { PrintErasedItems(items); }
    case Obj(entries) => PrintErasedEntries(entries);
    case _ =>
  }

  lemma {:induction false} PrintErasedItems(items: seq<Json>)
    ensures PrintItems(EraseItems(items)) == PrintItems(items)
    decreases items, 1
  {
    if items != [] {
      PrintErased(items[0]);
      PrintErasedItems(items[1..]);
    }
  }

  lemma {:induction false} PrintErasedEntries(entries: seq<Entry>)
    ensures PrintEntries(EraseEntries(entries)) == PrintEntries(entries)
    decreases entries, 1
  {
    if entries != [] {
      PrintErased(entries[0].value);
      PrintErasedEntries(entries[1..]);
    }
  }

  /** For all values: same text exactly when same canonical value, `[undefined]` read as `[]`. */
  lemma {:induction false} SameTextIffSameCanonical(le: (string, string) -> bool, a: Json, b: Json)
    ensures StableStringify(le, a) == StableStringify(le, b) <==>
            Erase(Canonical(le, a)) == Erase(Canonical(le, b))
  {
    var ca, cb := Canonical(le, a), Canonical(le, b);
    ReadPrinted(ca, "");
    ReadPrinted(cb, "");
    assert Print(ca) + "" == Print(ca) && Print(cb) + "" == Print(cb);
    PrintErased(ca);
    PrintErased(cb);
  }

  /** A collision the source has: an array holding just `undefined` and the empty array. */
  lemma UndefinedElementCollides(le: (string, string) -> bool)
    ensures StableStringify(le, Arr([Undefined])) == StableStringify(le, Arr([])) == "[]"
  {
    assert CanonicalItems(le, [Undefined]) == [Undefined];
  }

  // ----- key order

  /** No two keys of one object are equal to the collation, at any depth. */
  ghost predicate Untied(le: (string, string) -> bool, v: Json)
    decreases v
  {
    match v
    case Arr(items) => forall i | 0 <= i < |items| :: Untied(le, items[i])
    case Obj(entries) =>
      TieFree(ByKey(le), entries) && forall i | 0 <= i < |entries| :: Untied(le, entries[i].value)
    case _ => true
  }

  /** Equality of JSON values that ignores the order of object keys. */
  ghost predicate SameJson(a: Json, b: Json)
    decreases a, 0
  {
    match (a, b)
    case (Arr(xs), Arr(ys)) => |xs| == |ys| && forall i | 0 <= i < |xs| :: SameJson(xs[i], ys[i])
    case (Obj(es), Obj(fs)) =>
      (forall e | e in es :: MatchIn(e, fs)) && (forall f | f in fs :: MatchFrom(es, f))
    case _ => a == b
  }

  ghost predicate MatchIn(e: Entry, fs: seq<Entry>)
    decreases e, 2
  {
    exists f | f in fs :: SameEntry(e, f)
  }

  ghost predicate MatchFrom(es: seq<Entry>, f: Entry)
    decreases es, 2
  {
    exists e | e in es :: SameEntry(e, f)
  }

  ghost predicate SameEntry(e: Entry, f: Entry)
    decreases e, 1
  {
    e.key == f.key && SameJson(e.value, f.value)
  }

  lemma ByKeyPreorder(le: (string, string) -> bool)
    requires TotalPreorder(le)
    ensures TotalPreorder(ByKey(le))
  {
    forall a, b ensures ByKey(le)(a, b) || ByKey(le)(b, a) {
      assert le(a.key, b.key) || le(b.key, a.key);
    }
    forall a, b, c | ByKey(le)(a, b) && ByKey(le)(b, c) ensures ByKey(le)(a, c) {
      assert le(a.key, b.key) && le(b.key, c.key);
    }
  }

  lemma CanonicalEntriesTieFree(le: (string, string) -> bool, es: seq<Entry>)
    requires TieFree(ByKey(le), es)
    ensures TieFree(ByKey(le), CanonicalEntries(le, es))
  {
    var ce := CanonicalEntries(le, es);
    forall i, j | 0 <= i < j < |ce| ensures !Tied(ByKey(le), ce[i], ce[j]) {
      assert !Tied(ByKey(le), es[i], es[j]);
    }
  }

  lemma CanonicalItemsEqual(le: (string, string) -> bool, xs: seq<Json>, ys: seq<Json>)
    ensures CanonicalItems(le, xs) == CanonicalItems(le, ys) <==>
            |xs| == |ys| && forall i | 0 <= i < |xs| :: Canonical(le, xs[i]) == Canonical(le, ys[i])
  {
    var cx, cy := CanonicalItems(le, xs), CanonicalItems(le, ys);
    if cx == cy {
      forall i | 0 <= i < |xs| ensures Canonical(le, xs[i]) == Canonical(le, ys[i]) {
        assert cx[i] == cy[i];
      }
    }
  }

  // Canonically equal values are the same, whatever the collation.

  lemma {:induction false} CanonicalImpliesSame(le: (string, string) -> bool, a: Json, b: Json)
    requires Canonical(le, a) == Canonical(le, b)
    ensures SameJson(a, b)
    decreases a
  {
    match (a, b)
    case (Arr(xs), Arr(ys)) =>
      CanonicalItemsEqual(le, xs, ys);
      forall i | 0 <= i < |xs| ensures SameJson(xs[i], ys[i]) {
        CanonicalImpliesSame(le, xs[i], ys[i]);
      }
    case (Obj(es), Obj(fs)) =>
      var ce, cf := CanonicalEntries(le, es), CanonicalEntries(le, fs);
      forall i, j | 0 <= i < |es| && 0 <= j < |fs| && ce[i] == cf[j] ensures SameEntry(es[i], fs[j]) {
        CanonicalImpliesSame(le, es[i].value, fs[j].value);
      }
      forall e ensures e in ce <==> e in cf {
        SortKeepsElements(ByKey(le), ce, e);
        SortKeepsElements(ByKey(le), cf, e);
      }
      EntriesMatch(ce, cf, es, fs);
    case _ =>
  }

  lemma {:induction false} EntriesMatch(ce: seq<Entry>, cf: seq<Entry>, es: seq<Entry>, fs: seq<Entry>)
    requires |ce| == |es| && |cf| == |fs|
    requires forall e :: e in ce <==> e in cf
    requires forall i, j | 0 <= i < |es| && 0 <= j < |fs| && ce[i] == cf[j] :: SameEntry(es[i], fs[j])
    ensures forall e | e in es :: MatchIn(e, fs)
    ensures forall f | f in fs :: MatchFrom(es, f)
  {
    forall e | e in es ensures MatchIn(e, fs) {
      var i :| 0 <= i < |es| && es[i] == e;
      assert ce[i] in cf;
      var j :| 0 <= j < |cf| && cf[j] == ce[i];
      assert SameEntry(es[i], fs[j]);
    }
    forall f | f in fs ensures MatchFrom(es, f) {
      var j :| 0 <= j < |fs| && fs[j] == f;
      assert cf[j] in ce;
      var i :| 0 <= i < |ce| && ce[i] == cf[j];
      assert SameEntry(es[i], fs[j]);
    }
  }

  // The same value is canonically equal, if its keys do not tie.

  lemma {:induction false} SameImpliesCanonical(le: (string, string) -> bool, a: Json, b: Json)
    requires TotalPreorder(le) && Untied(le, a) && Untied(le, b) && SameJson(a, b)
    ensures Canonical(le, a) == Canonical(le, b)
    decreases a
  {
    match (a, b)
    case (Arr(xs), Arr(ys)) =>
      forall i | 0 <= i < |xs| ensures Canonical(le, xs[i]) == Canonical(le, ys[i]) {
        SameImpliesCanonical(le, xs[i], ys[i]);
      }
      CanonicalItemsEqual(le, xs, ys);
    case (Obj(es), Obj(fs)) =>
      var ce, cf := CanonicalEntries(le, es), CanonicalEntries(le, fs);
      forall i, j | 0 <= i < |es| && 0 <= j < |fs| && SameEntry(es[i], fs[j]) ensures ce[i] == cf[j] {
        SameImpliesCanonical(le, es[i].value, fs[j].value);
      }
      EntriesFound(ce, cf, es, fs);
      CanonicalEntriesTieFree(le, es);
      CanonicalEntriesTieFree(le, fs);
      SortedEntriesEqual(le, ce, cf);
    case _ =>
  }

  lemma {:induction false} EntriesFound(ce: seq<Entry>, cf: seq<Entry>, es: seq<Entry>, fs: seq<Entry>)
    requires |ce| == |es| && |cf| == |fs|
    requires forall i, j | 0 <= i < |es| && 0 <= j < |fs| && SameEntry(es[i], fs[j]) :: ce[i] == cf[j]
    requires forall e | e in es :: MatchIn(e, fs)
    requires forall f | f in fs :: MatchFrom(es, f)
    ensures forall e :: e in ce <==> e in cf
  {
    forall i | 0 <= i < |ce| ensures ce[i] in cf {
      assert MatchIn(es[i], fs);
      var f :| f in fs && SameEntry(es[i], f);
      var j :| 0 <= j < |fs| && fs[j] == f;
      assert cf[j] == ce[i];
    }
    forall j | 0 <= j < |cf| ensures cf[j] in ce {
      assert MatchFrom(es, fs[j]);
      var e :| e in es && SameEntry(e, fs[j]);
      var i :| 0 <= i < |es| && es[i] == e;
      assert ce[i] == cf[j];
    }
  }

  lemma {:induction false} SortedEntriesEqual(le: (string, string) -> bool, a: seq<Entry>, b: seq<Entry>)
    requires TotalPreorder(le) && TieFree(ByKey(le), a) && TieFree(ByKey(le), b)
    requires forall e :: e in a <==> e in b
    ensures StableSort(ByKey(le), a) == StableSort(ByKey(le), b)
  {
    ByKeyPreorder(le);
    SortStrict(ByKey(le), a);
    SortStrict(ByKey(le), b);
    forall e ensures (e in StableSort(ByKey(le), a) <==> e in a) && (e in StableSort(ByKey(le), b) <==> e in b) {
      SortKeepsElements(ByKey(le), a, e);
      SortKeepsElements(ByKey(le), b, e);
    }
    StrictlySortedUnique(ByKey(le), StableSort(ByKey(le), a), StableSort(ByKey(le), b));
  }

  // ----- erasing and sorting do not interfere

  lemma {:induction false} InsertEraseCommutes(le: (string, string) -> bool, e: Entry, es: seq<Entry>)
    ensures Insert(ByKey(le), Entry(e.key, Erase(e.value)), EraseEntries(es)) ==
            EraseEntries(Insert(ByKey(le), e, es))
  {
    if es != [] && !le(e.key, es[0].key) {
      InsertEraseCommutes(le, e, es[1..]);
    } else {
      assert ([e] + es)[1..] == es;
    }
  }

  lemma {:induction false} SortEraseCommutes(le: (string, string) -> bool, es: seq<Entry>)
    ensures StableSort(ByKey(le), EraseEntries(es)) == EraseEntries(StableSort(ByKey(le), es))
  {
    if es != [] {
      SortEraseCommutes(le, es[1..]);
      InsertEraseCommutes(le, es[0], StableSort(ByKey(le), es[1..]));
    }
  }

  lemma {:induction false} EraseCommutes(le: (string, string) -> bool, v: Json)
    ensures Erase(Canonical(le, v)) == Canonical(le, Erase(v))
    decreases v
  {
    match v
    case Arr(items) =>
      forall i | 0 <= i < |items| ensures Erase(Canonical(le, items[i])) == Canonical(le, Erase(items[i])) {
        EraseCommutes(le, items[i]);
      }
      var ci := CanonicalItems(le, items);
      assert |items| == 1 ==> (ci == [Undefined] <==> ci[0] == Undefined) && (items == [Undefined] <==> items[0] == Undefined);
      assert EraseItems(ci) == CanonicalItems(le, EraseItems(items));
    case Obj(es) =>
      forall i | 0 <= i < |es| ensures Erase(Canonical(le, es[i].value)) == Canonical(le, Erase(es[i].value)) {
        EraseCommutes(le, es[i].value);
      }
      SortEraseCommutes(le, CanonicalEntries(le, es));
      assert EraseEntries(CanonicalEntries(le, es)) == CanonicalEntries(le, EraseEntries(es));
    case _ =>
  }

  lemma {:induction false} ErasedUntied(le: (string, string) -> bool, v: Json)
    requires Untied(le, v)
    ensures Untied(le, Erase(v))
    decreases v
  {
    match v
    case Arr(items) =>
      forall i | 0 <= i < |items| ensures Untied(le, Erase(items[i])) {
        ErasedUntied(le, items[i]);
      }
    case Obj(es) =>
      var ee := EraseEntries(es);
      forall i | 0 <= i < |es| ensures Untied(le, ee[i].value) {
        ErasedUntied(le, es[i].value);
      }
      forall i, j | 0 <= i < j < |ee| ensures !Tied(ByKey(le), ee[i], ee[j]) {
        assert !Tied(ByKey(le), es[i], es[j]);
      }
    case _ =>
  }

  // ----- the main results

  /** Values with the same text are the same up to key order, for any collation. */
  lemma {:induction false} SameTextImpliesSameJson(le: (string, string) -> bool, a: Json, b: Json)
    requires StableStringify(le, a) == StableStringify(le, b)
    ensures SameJson(Erase(a), Erase(b))
  {
    SameTextIffSameCanonical(le, a, b);
    EraseCommutes(le, a);
    EraseCommutes(le, b);
    CanonicalImpliesSame(le, Erase(a), Erase(b));
  }

  /** Without key ties the text is a faithful name for the value up to key order. */
  lemma {:induction false} SameTextIffSameJson(le: (string, string) -> bool, a: Json, b: Json)
    requires TotalPreorder(le) && Untied(le, a) && Untied(le, b)
    ensures StableStringify(le, a) == StableStringify(le, b) <==> SameJson(Erase(a), Erase(b))
  {
    if SameJson(Erase(a), Erase(b)) {
      ErasedUntied(le, a);
      ErasedUntied(le, b);
      SameImpliesCanonical(le, Erase(a), Erase(b));
      EraseCommutes(le, a);
      EraseCommutes(le, b);
      SameTextIffSameCanonical(le, a, b);
    } else if StableStringify(le, a) == StableStringify(le, b) {
      SameTextImpliesSameJson(le, a, b);
    }
  }

  ghost predicate DistinctKeys(es: seq<Entry>) {
    forall i, j | 0 <= i < j < |es| :: es[i].key != es[j].key
  }

  ghost predicate OrderInvisible(le: (string, string) -> bool, es: seq<Entry>) {
    forall fs: seq<Entry> | multiset(fs) == multiset(es) ::
      StableStringify(le, Obj(fs)) == StableStringify(le, Obj(es))
  }

  /** Key order is invisible in an object's text exactly when no two of its keys tie: two keys
      the collation calls equal keep the order they were inserted in. */
  lemma {:induction false} OrderInvisibleIffUntied(le: (string, string) -> bool, es: seq<Entry>)
    requires TotalPreorder(le) && DistinctKeys(es)
    ensures OrderInvisible(le, es) <==> TieFree(ByKey(le), es)
  {
    if TieFree(ByKey(le), es) {
      forall fs: seq<Entry> | multiset(fs) == multiset(es)
        ensures StableStringify(le, Obj(fs)) == StableStringify(le, Obj(es))
      {
        UntiedHidesOrder(le, es, fs);
      }
    } else {
      TiedShowsOrder(le, es);
    }
  }

  lemma {:induction false} UntiedHidesOrder(le: (string, string) -> bool, es: seq<Entry>, fs: seq<Entry>)
    requires TotalPreorder(le) && TieFree(ByKey(le), es) && multiset(fs) == multiset(es)
    ensures StableStringify(le, Obj(fs)) == StableStringify(le, Obj(es))
  {
    ByKeyPreorder(le);
    SortIgnoresOrder(ByKey(le), es, fs);
    SortEntriesCommutes(le, es);
    SortEntriesCommutes(le, fs);
  }

  lemma {:induction false} DifferentTextsShowOrder(le: (string, string) -> bool, es: seq<Entry>, fs: seq<Entry>,
      gs: seq<Entry>)
    requires multiset(fs) == multiset(es) && multiset(gs) == multiset(es)
    requires StableStringify(le, Obj(fs)) != StableStringify(le, Obj(gs))
    ensures !OrderInvisible(le, es)
  {
  }

  lemma {:induction false} TiedShowsOrder(le: (string, string) -> bool, es: seq<Entry>)
    requires TotalPreorder(le) && DistinctKeys(es) && !TieFree(ByKey(le), es)
    ensures !OrderInvisible(le, es)
  {
    var i, j :| 0 <= i < j < |es| && Tied(ByKey(le), es[i], es[j]);
    var e, f := es[i], es[j];
    var others := es[..i] + es[i + 1..j] + es[j + 1..];
    BringForward(es, i, j, others);
    TiedSwapShows(le, e, f, others);
    DifferentTextsShowOrder(le, es, [e, f] + others, [f, e] + others);
  }

  lemma {:induction false} BringForward(es: seq<Entry>, i: nat, j: nat, others: seq<Entry>)
    requires i < j < |es| && others == es[..i] + es[i + 1..j] + es[j + 1..]
    ensures multiset([es[i], es[j]] + others) == multiset(es)
    ensures multiset([es[j], es[i]] + others) == multiset(es)
  {
    assert es == es[..i] + [es[i]] + es[i + 1..j] + [es[j]] + es[j + 1..];
  }

  lemma {:induction false} TiedSwapShows(le: (string, string) -> bool, e: Entry, f: Entry, others: seq<Entry>)
    requires TotalPreorder(le) && Tied(ByKey(le), e, f) && e.key != f.key
    ensures StableStringify(le, Obj([e, f] + others)) != StableStringify(le, Obj([f, e] + others))
  {
    ByKeyPreorder(le);
    var p, q := SortKeepsTiedOrder(ByKey(le), e, f, others);
    var one, two := [e, f] + others, [f, e] + others;
    SortEntriesCommutes(le, one);
    SortEntriesCommutes(le, two);
    SameTextIffSameCanonical(le, Obj(one), Obj(two));
    var s1, s2 := StableSort(ByKey(le), one), StableSort(ByKey(le), two);
    var x1, x2 := EraseEntries(CanonicalEntries(le, s1)), EraseEntries(CanonicalEntries(le, s2));
    assert s1[|p|] == e && s2[|p|] == f;
    assert x1[|p|].key == e.key && x2[|p|].key == f.key;
  }
}
