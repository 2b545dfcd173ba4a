/** The dotted-path lookup behind `useTranslation(language).t(key)`.

    A translation table is a JSON-like tree: string leaves, arrays and objects.
    An object is a list of named fields looked up by name (JavaScript objects
    written as literals carry each name once). Strings are leaves: the model
    does not index into their characters, and no key reaches a prototype
    property such as `length` or `constructor`. */
module Translations {
  import opened Wrappers
  import Strings

  datatype Value = Str(text: string) | Arr(items: seq<Value>) | Obj(fields: seq<Field>)
  datatype Field = Field(name: string, value: Value)

  /** JavaScript truthiness of a table value: only the empty string is falsy
      (arrays and objects are truthy even when empty). */
  predicate Truthy(v: Value) {
    !(v.Str? && |v.text| == 0)
  }

  function DigitValue(c: char): nat
    requires '0' <= c <= '9'
  {
    c as int - '0' as int
  }

  function DigitChar(d: nat): (c: char)
    requires d < 10
    ensures '0' <= c <= '9' && DigitValue(c) == d
  {
    ('0' as int + d) as char
  }

  predicate AllDigits(s: string) {
    forall i :: 0 <= i < |s| ==> '0' <= s[i] <= '9'
  }

  /** The number a string of decimal digits denotes. */
  function DigitsValue(s: string): nat
    requires AllDigits(s)
  {
    if |s| == 0 then 0 else DigitsValue(s[..|s| - 1]) * 10 + DigitValue(s[|s| - 1])
  }

  /** The canonical decimal spelling of `n`: no sign, no leading zero. */
  function DecimalString(n: nat): (s: string)
    ensures |s| >= 1 && AllDigits(s)
    ensures s[0] == '0' ==> n == 0 && s == "0"
  {
    if n < 10 then [DigitChar(n)] else DecimalString(n / 10) + [DigitChar(n % 10)]
  }

  /** The array index a property key names: only the canonical decimal spelling
      of a number does, so `"0"` and `"3"` are indices but `"03"`, `"+1"` and `""`
      are not. */
  function ArrayIndex(k: string): Option<nat> {
    if |k| >= 1 && AllDigits(k) && (k[0] != '0' || k == "0") then Some(DigitsValue(k)) else None
  }

  lemma {:induction false} DigitsOfDecimal(n: nat)
    ensures DigitsValue(DecimalString(n)) == n
  {
    if n >= 10 {
      DigitsOfDecimal(n / 10);
      var s := DecimalString(n);
      assert s[..|s| - 1] == DecimalString(n / 10);
    }
  }

  lemma {:induction false} DecimalOfDigits(k: string)
    requires |k| >= 1 && AllDigits(k) && (k[0] != '0' || k == "0")
    ensures DecimalString(DigitsValue(k)) == k
    decreases |k|
  {
    var n := DigitsValue(k);
    if |k| == 1 {
      assert |k[..|k| - 1]| == 0;
      assert DigitsValue(k[..|k| - 1]) == 0;
      assert n == DigitValue(k[0]);
      assert [DigitChar(n)] == k;
    } else {
      var init := k[..|k| - 1];
      assert init[0] == k[0] && init[0] != '0';
      assert AllDigits(init);
      DecimalOfDigits(init);
      var m := DigitsValue(init);
      assert m >= 1 by {
        assert DecimalString(0) == "0";
      }
      assert n / 10 == m && n % 10 == DigitValue(k[|k| - 1]);
      assert DigitChar(n % 10) == k[|k| - 1];
      assert k == init + [k[|k| - 1]];
    }
  }

  /** Array indices round-trip through their decimal spelling, in both
      directions: every number has exactly one key that indexes it. */
  lemma ArrayIndexRoundTrip(n: nat, k: string)
    ensures ArrayIndex(DecimalString(n)) == Some(n)
    ensures ArrayIndex(k) == Some(n) ==> k == DecimalString(n)
  {
    DigitsOfDecimal(n);
    if ArrayIndex(k) == Some(n) {
      DecimalOfDigits(k);
    }
  }

  /** The position of the first field called `name`, or `|fields|` when no
      field has that name. */
  function FieldIndex(fields: seq<Field>, name: string): (i: nat)
    ensures i <= |fields|
    ensures i < |fields| ==> fields[i].name == name
    ensures forall j :: 0 <= j < i ==> fields[j].name != name
  {
    if |fields| == 0 || fields[0].name == name then 0
    else
      var i := FieldIndex(fields[1..], name);
      assert forall j :: 1 <= j < i + 1 ==> fields[j] == fields[1..][j - 1];
      i + 1
  }

  /** The value of the first field called `name`, if any. */
  function FieldValue(fields: seq<Field>, name: string): (r: Option<Value>)
    ensures r.None? <==> forall i :: 0 <= i < |fields| ==> fields[i].name != name
  {
    var i := FieldIndex(fields, name);
    if i < |fields| then Some(fields[i].value) else None
  }

  /** `value?.[k]` for a value that is present: an object's own field, an
      array's element at a canonical index in range, and nothing else. */
  function Child(v: Value, k: string): (r: Option<Value>)
    ensures v.Str? ==> r.None?
    ensures v.Arr? ==> (r.Some? <==> ArrayIndex(k).Some? && ArrayIndex(k).value < |v.items|)
    ensures r.Some? && v.Arr? ==> r.value == v.items[ArrayIndex(k).value]
    ensures v.Obj? ==> r == FieldValue(v.fields, k)
  {
    match v
    case Str(_) => None
    case Arr(items) =>
      (match ArrayIndex(k)
       case Some(i) => if i < |items| then Some(items[i]) else None
       case None => None)
    case Obj(fields) => FieldValue(fields, k)
  }

  /** The loop `for (const k of keys) value = value?.[k]`: one step per
      segment, and once the walk falls off the tree it stays `undefined`. */
  function Walk(v: Option<Value>, path: seq<string>): (r: Option<Value>)
    ensures v.None? ==> r.None?
    ensures |path| == 0 ==> r == v
    ensures |path| == 1 && v.Some? ==> r == Child(v.value, path[0])
    decreases |path|
  {
    if |path| == 0 then v
    else match v
      case None => None
      case Some(x) => Walk(Child(x, path[0]), path[1..])
  }

  /** Walking a concatenated path is walking its two halves in turn. */
  lemma {:induction false} WalkAppend(v: Option<Value>, p: seq<string>, q: seq<string>)
    ensures Walk(v, p + q) == Walk(Walk(v, p), q)
    decreases |p|
  {
    if |p| == 0 {
      assert p + q == q;
    } else if v.Some? {
      assert (p + q)[1..] == p[1..] + q;
      WalkAppend(Child(v.value, p[0]), p[1..], q);
    }
  }

  /** The path `t(key)` walks from the whole table: the language, then the
      key's dot-separated segments. */
  function KeyPath(language: string, key: string): seq<string> {
    [language] + Strings.Split(key, '.')
  }

  /** `useTranslation(language).t(key)` over the table `root`: the value at the
      key's path when it is present and truthy, and otherwise the key itself. */
  function Translate(root: Value, language: string, key: string): (r: Value)
    ensures r == Str(key) || (Walk(Some(root), KeyPath(language, key)) == Some(r) && Truthy(r))
  {
    var found := Walk(Some(root), KeyPath(language, key));
    if found.Some? && Truthy(found.value) then found.value else Str(key)
  }

  /** A key resolves when `t` finds a truthy value for it rather than falling
      back to the key. */
  predicate Resolves(root: Value, language: string, key: string) {
    var found := Walk(Some(root), KeyPath(language, key));
    found.Some? && Truthy(found.value)
  }

  /** The result of `t` is the found value exactly when the key resolves, and
      the key itself otherwise: absent segments and falsy values both fall
      back, and the lookup has no failure case. */
  lemma TranslateCases(root: Value, language: string, key: string)
    ensures Resolves(root, language, key) ==>
      Some(Translate(root, language, key)) == Walk(Some(root), KeyPath(language, key))
    ensures !Resolves(root, language, key) ==> Translate(root, language, key) == Str(key)
    ensures Walk(Some(root), KeyPath(language, key)) == Some(Str("")) ==>
      Translate(root, language, key) == Str(key)
  {
  }

  /** The two halves of `useTranslation(language)`: the function `t` and the
      language's own subtree (`undefined` for a language the table lacks). */
  datatype TranslationHook = TranslationHook(translations: Option<Value>)

  function UseTranslation(root: Value, language: string): (h: TranslationHook)
    ensures h.translations == Walk(Some(root), [language])
  {
    TranslationHook(Child(root, language))
  }

  /** `t` agrees with walking the key's segments from the subtree the hook
      hands out, so the two halves of the hook describe the same table. */
  lemma TranslateFromSubtree(root: Value, language: string, key: string)
    ensures var found := Walk(UseTranslation(root, language).translations, Strings.Split(key, '.'));
      Translate(root, language, key) == if found.Some? && Truthy(found.value) then found.value else Str(key)
  {
  }

  /** A language the table has no subtree for translates every key to itself. */
  lemma UnknownLanguageFallsBack(root: Value, language: string, key: string)
    requires Child(root, language).None?
    ensures Translate(root, language, key) == Str(key)
  {
    WalkAppend(Some(root), [language], Strings.Split(key, '.'));
  }

  /** Two trees with the same shape: the same field names in the same order,
      arrays of the same lengths, and strings that are empty in one exactly
      when they are empty in the other. */
  predicate SameShape(a: Value, b: Value)
    decreases a, 1
  {
    match a
    case Str(x) =>
      b.Str? && (|x| == 0 <==> |b.text| == 0)
    case Arr(xs) =>
      && b.Arr?
      && |xs| == |b.items|
      && forall i :: 0 <= i < |xs| ==> SameShape(xs[i], b.items[i])
    case Obj(fs) =>
      b.Obj? && SameFields(fs, b.fields)
  }

  /** Two field lists with the same names in the same order and values of the
      same shape. */
  predicate SameFields(fs: seq<Field>, gs: seq<Field>)
    decreases fs, 0
  {
    && |fs| == |gs|
    && forall i :: 0 <= i < |fs| ==> fs[i].name == gs[i].name && SameShape(fs[i].value, gs[i].value)
  }

  lemma SameShapeFieldValue(fs: seq<Field>, gs: seq<Field>, k: string)
    requires SameFields(fs, gs)
    ensures FieldValue(fs, k).Some? <==> FieldValue(gs, k).Some?
    ensures FieldValue(fs, k).Some? ==> SameShape(FieldValue(fs, k).value, FieldValue(gs, k).value)
  {
  }

  /** The first position with a name is the only position that has the name
      and no earlier occurrence of it. */
  lemma FieldIndexUnique(fs: seq<Field>, k: string, i: nat)
    requires i <= |fs|
    requires i < |fs| ==> fs[i].name == k
    requires forall j :: 0 <= j < i ==> fs[j].name != k
    ensures FieldIndex(fs, k) == i
  {
  }

  /** The fields of consecutive sections, in order. */
  function Concat(sections: seq<seq<Field>>): seq<Field> {
    if |sections| == 0 then [] else sections[0] + Concat(sections[1..])
  }

  /** Sections pairwise of the same shape concatenate to field lists of the
      same shape. */
  lemma {:induction false} SameFieldsConcat(ss: seq<seq<Field>>, ts: seq<seq<Field>>)
    requires |ss| == |ts|
    requires forall s :: 0 <= s < |ss| ==> SameFields(ss[s], ts[s])
    ensures SameFields(Concat(ss), Concat(ts))
  {
    if |ss| > 0 {
      SameFieldsConcat(ss[1..], ts[1..]);
      var a: seq<Field>, b: seq<Field> := ss[0], ts[0];
      var c: seq<Field>, d: seq<Field> := Concat(ss[1..]), Concat(ts[1..]);
      assert SameFields(a, b);
      forall i | 0 <= i < |a + c|
        ensures (a + c)[i].name == (b + d)[i].name && SameShape((a + c)[i].value, (b + d)[i].value)
      {
        if i < |a| {
          assert (a + c)[i] == a[i] && (b + d)[i] == b[i];
        } else {
          assert (a + c)[i] == c[i - |a|] && (b + d)[i] == d[i - |a|];
        }
      }
    }
  }

  /** Lookup in an appended field list: the first list wins. */
  lemma FieldValueAppend(fs: seq<Field>, gs: seq<Field>, k: string)
    ensures FieldValue(fs + gs, k) == if FieldValue(fs, k).Some? then FieldValue(fs, k) else FieldValue(gs, k)
  {
    var i, j := FieldIndex(fs, k), FieldIndex(gs, k);
    if i < |fs| {
      assert (fs + gs)[i] == fs[i];
      assert forall m :: 0 <= m < i ==> (fs + gs)[m] == fs[m];
      FieldIndexUnique(fs + gs, k, i);
    } else {
      assert forall m :: 0 <= m < |fs| ==> (fs + gs)[m] == fs[m];
      assert forall m :: |fs| <= m < |fs| + j ==> (fs + gs)[m] == gs[m - |fs|];
      if j < |gs| {
        assert (fs + gs)[|fs| + j] == gs[j];
      }
      FieldIndexUnique(fs + gs, k, |fs| + j);
    }
  }

  /** The field at position `i` is the one found when no earlier field has its
      name. */
  lemma FieldValueAt(fs: seq<Field>, i: nat, k: string)
    requires i < |fs| && fs[i].name == k
    requires forall j :: 0 <= j < i ==> fs[j].name != k
    ensures FieldValue(fs, k) == Some(fs[i].value)
  {
  }

  /** No field of the first `s` sections is called `k`. */
  predicate AbsentBefore(ss: seq<seq<Field>>, s: nat, k: string)
    requires s <= |ss|
  {
    forall t, i :: 0 <= t < s && 0 <= i < |ss[t]| ==> ss[t][i].name != k
  }

  /** A name no section has is not in their concatenation either. */
  lemma {:induction false} FieldValueConcatNone(ss: seq<seq<Field>>, k: string)
    requires AbsentBefore(ss, |ss|, k)
    ensures FieldValue(Concat(ss), k).None?
  {
    if |ss| > 0 {
      assert forall t :: 1 <= t < |ss| ==> ss[1..][t - 1] == ss[t];
      FieldValueConcatNone(ss[1..], k);
      FieldValueAppend(ss[0], Concat(ss[1..]), k);
    }
  }

  /** Lookup in concatenated sections: the value comes from the first section
      that has the name. */
  lemma {:induction false} FieldValueConcat(ss: seq<seq<Field>>, s: nat, k: string)
    requires s < |ss| && FieldValue(ss[s], k).Some?
    requires AbsentBefore(ss, s, k)
    ensures FieldValue(Concat(ss), k) == FieldValue(ss[s], k)
  {
    FieldValueAppend(ss[0], Concat(ss[1..]), k);
    if s > 0 {
      assert FieldValue(ss[0], k).None? by {
        assert forall i :: 0 <= i < |ss[0]| ==> ss[0][i].name != k;
      }
      assert AbsentBefore(ss[1..], s - 1, k) by {
        forall t, i | 0 <= t < s - 1 && 0 <= i < |ss[1..][t]|
          ensures ss[1..][t][i].name != k
        {
          assert ss[1..][t] == ss[t + 1];
        }
      }
      FieldValueConcat(ss[1..], s - 1, k);
    }
  }

  lemma SameShapeChild(a: Value, b: Value, k: string)
    requires SameShape(a, b)
    ensures Child(a, k).Some? <==> Child(b, k).Some?
    ensures Child(a, k).Some? ==> SameShape(Child(a, k).value, Child(b, k).value)
  {
  }

  /** Walks in two trees of the same shape succeed together and end in values
      of the same shape. */
  lemma {:induction false} SameShapeWalk(a: Value, b: Value, path: seq<string>)
    requires SameShape(a, b)
    ensures Walk(Some(a), path).Some? <==> Walk(Some(b), path).Some?
    ensures Walk(Some(a), path).Some? ==> SameShape(Walk(Some(a), path).value, Walk(Some(b), path).value)
    decreases |path|
  {
    if |path| > 0 {
      SameShapeChild(a, b, path[0]);
      var ca, cb := Child(a, path[0]), Child(b, path[0]);
      if ca.Some? {
        SameShapeWalk(ca.value, cb.value, path[1..]);
      }
    }
  }

  /** Languages whose subtrees have the same shape resolve exactly the same
      keys. */
  lemma SameShapeResolves(root: Value, l1: string, l2: string, key: string)
    requires Child(root, l1).Some? && Child(root, l2).Some?
    requires SameShape(Child(root, l1).value, Child(root, l2).value)
    ensures Resolves(root, l1, key) <==> Resolves(root, l2, key)
  {
    var path := Strings.Split(key, '.');
    WalkAppend(Some(root), [l1], path);
    WalkAppend(Some(root), [l2], path);
    SameShapeWalk(Child(root, l1).value, Child(root, l2).value, path);
  }

  /** The key `name.n` reaches the `n`-th element of the array `name`: a
      dotted key with a numeric segment indexes into a list. */
  lemma TranslateIndexed(root: Value, language: string, name: string, n: nat)
    requires '.' !in name
    requires Child(root, language).Some?
    requires Child(Child(root, language).value, name).Some?
    requires var list := Child(Child(root, language).value, name).value;
      list.Arr? && n < |list.items| && Truthy(list.items[n])
    ensures Walk(Some(root), KeyPath(language, name + "." + DecimalString(n)))
      == Some(Child(Child(root, language).value, name).value.items[n])
    ensures Translate(root, language, name + "." + DecimalString(n))
      == Child(Child(root, language).value, name).value.items[n]
  {
    var d := DecimalString(n);
    assert '.' !in d;
    Strings.SplitJoin([name, d], '.');
    assert Strings.Join([name, d], '.') == name + "." + d;
    ArrayIndexRoundTrip(n, d);
    var path := KeyPath(language, name + "." + d);
    assert path == [language, name, d];
    var sub := Child(root, language);
    var list := Child(sub.value, name);
    assert Walk(Some(root), path) == Walk(sub, [name, d]);
    assert Walk(sub, [name, d]) == Walk(list, [d]);
    assert Walk(list, [d]) == Walk(Child(list.value, d), []);
  }

  /** A key whose first segment the language's subtree lacks falls back to the
      key itself. */
  lemma TranslateMissingSegment(root: Value, language: string, first: string, rest: string)
    requires '.' !in first
    requires Child(root, language).Some?
    requires Child(Child(root, language).value, first).None?
    ensures Translate(root, language, first + "." + rest) == Str(first + "." + rest)
  {
    var tail := Strings.Split(rest, '.');
    var parts := [first] + tail;
    assert forall i :: 0 <= i < |parts| ==> '.' !in parts[i] by {
      forall i | 0 <= i < |parts|
        ensures '.' !in parts[i]
      {
        if i > 0 {
          assert parts[i] == tail[i - 1];
        }
      }
    }
    Strings.SplitJoin(parts, '.');
    assert Strings.Join(parts, '.') == first + "." + rest by {
      assert parts[1..] == tail;
    }
    var path := KeyPath(language, first + "." + rest);
    assert path == [language, first] + tail;
    WalkAppend(Some(root), [language, first], tail);
  }
}
