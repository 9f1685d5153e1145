/** DumpGetterReturnsTrait: dumping every argument-less getter of an object into
    a string array keyed by the snake_case property name, sorted by key. */
module DumpGetterReturns {

  /** What a getter can return, as far as the dump distinguishes it. An array
      carries the text print_r renders for it, a float the text PHP's string
      cast gives it. */
  datatype Value = Str(text: string) | Int(number: int) | Float(cast: string) | Bool(flag: bool) | Null | Arr(printed: string) | Obj

  /** A method of the object's class: name, number of parameters, and what
      calling it returns. */
  datatype Getter = Getter(name: string, arity: nat, value: Value)

  predicate StartsWith(s: string, prefix: string)
  {
    |prefix| <= |s| && s[..|prefix|] == prefix
  }

  // ---------------------------------------------------------------------------
  // getPropertyFromGetter

  /** Removes one leading `get`, `has` or `is`. */
  function StripPrefix(name: string): string
  {
    if StartsWith(name, "get") || StartsWith(name, "has") then name[3..]
    else if StartsWith(name, "is") then name[2..]
    else name
  }

  /** Exactly one prefix is removed, only at the start, and nothing else is
      touched: a name without one of the prefixes stays as it is. */
  lemma StripsOnePrefix(name: string)
    ensures StartsWith(name, "get") ==> name == "get" + StripPrefix(name)
    ensures StartsWith(name, "has") ==> name == "has" + StripPrefix(name)
    ensures StartsWith(name, "is") ==> name == "is" + StripPrefix(name)
    ensures !StartsWith(name, "get") && !StartsWith(name, "has") && !StartsWith(name, "is") ==>
              StripPrefix(name) == name
  {
    PrefixHead(name, "get");
    PrefixHead(name, "has");
    PrefixHead(name, "is");
  }

  /** Names starting with different letters do not share a prefix. */
  lemma PrefixHead(s: string, prefix: string)
    requires prefix != []
    ensures StartsWith(s, prefix) ==> s[0] == prefix[0]
  {
    if StartsWith(s, prefix) {
      assert s[..|prefix|][0] == s[0];
    }
  }

  predicate IsUpper(c: char)
  {
    'A' <= c <= 'Z'
  }

  function LowerChar(c: char): char
  {
    if IsUpper(c) then (c as int - 'A' as int + 'a' as int) as char else c
  }

  /** strtolower on ASCII letters. */
  function Lower(s: string): (lowered: string)
    ensures |lowered| == |s|
    ensures forall i :: 0 <= i < |s| ==> lowered[i] == LowerChar(s[i])
  {
    seq(|s|, i requires 0 <= i < |s| => LowerChar(s[i]))
  }

  /** `_` before every capital letter of `s`. */
  function MarkCapitals(s: string): string
  {
    if s == [] then []
    else (if IsUpper(s[0]) then ['_', s[0]] else [s[0]]) + MarkCapitals(s[1..])
  }

  /** `_` before every capital letter except one at position 0. */
  function Snake(s: string): string
  {
    if s == [] then [] else [s[0]] + MarkCapitals(s[1..])
  }

  /** getPropertyFromGetter: strip the prefix, mark the inner capitals, lower. */
  function PropertyFromGetter(getterName: string): string
  {
    Lower(Snake(StripPrefix(getterName)))
  }

  /** A property name holds no capital letter. */
  lemma PropertyHasNoCapitals(getterName: string)
    ensures var property := PropertyFromGetter(getterName);
            forall i :: 0 <= i < |property| ==> !IsUpper(property[i])
  {
  }

  /** `s` without its underscores. */
  function Erase(s: string): string
  {
    if s == [] then [] else (if s[0] == '_' then [] else [s[0]]) + Erase(s[1..])
  }

  /** The number of capital letters in `s`. */
  function Capitals(s: string): nat
  {
    if s == [] then 0 else (if IsUpper(s[0]) then 1 else 0) + Capitals(s[1..])
  }

  lemma {:induction false} EraseConcat(a: string, b: string)
    ensures Erase(a + b) == Erase(a) + Erase(b)
  {
    if a == [] {
      assert a + b == b;
    } else {
      assert (a + b)[0] == a[0] && (a + b)[1..] == a[1..] + b;
      EraseConcat(a[1..], b);
    }
  }

  lemma {:induction false} MarkCapitalsErased(s: string)
    ensures Erase(MarkCapitals(s)) == Erase(s)
    ensures |MarkCapitals(s)| == |s| + Capitals(s)
  {
    if s != [] {
      var head := if IsUpper(s[0]) then ['_', s[0]] else [s[0]];
      EraseConcat(head, MarkCapitals(s[1..]));
      MarkCapitalsErased(s[1..]);
      assert Erase(s) == Erase([s[0]]) + Erase(s[1..]) by {
        EraseConcat([s[0]], s[1..]);
        assert s == [s[0]] + s[1..];
      }
    }
  }

  lemma LowerConcat(a: string, b: string)
    ensures Lower(a + b) == Lower(a) + Lower(b)
  {
  }

  lemma {:induction false} LowerErase(s: string)
    ensures Lower(Erase(s)) == Erase(Lower(s))
  {
    if s != [] {
      var head := if s[0] == '_' then [] else [s[0]];
      LowerErase(s[1..]);
      LowerConcat(head, Erase(s[1..]));
      var lowered := Lower(s);
      assert lowered[0] == LowerChar(s[0]) && lowered[1..] == Lower(s[1..]);
    }
  }

  /** The property name is the stripped getter name, lowered, with underscores
      inserted and nothing else: erasing underscores from both gives the same
      text, and exactly one underscore was added per capital after the first
      character. */
  lemma {:induction false} PropertyOnlyInsertsUnderscores(getterName: string)
    ensures var stripped := StripPrefix(getterName);
            var property := PropertyFromGetter(getterName);
            Erase(property) == Erase(Lower(stripped)) &&
            |property| == |stripped| + (if stripped == [] then 0 else Capitals(stripped[1..]))
  {
    var stripped := StripPrefix(getterName);
    var snake := Snake(stripped);
    LowerErase(snake);
    LowerErase(stripped);
    if stripped != [] {
      MarkCapitalsErased(stripped[1..]);
      EraseConcat([stripped[0]], MarkCapitals(stripped[1..]));
      EraseConcat([stripped[0]], stripped[1..]);
      assert stripped == [stripped[0]] + stripped[1..];
    }
  }

  /** The first character of the stripped name never gets an underscore: a
      property starts with `_` only if the stripped name did. */
  lemma NoLeadingUnderscoreAdded(getterName: string)
    ensures var stripped := StripPrefix(getterName);
            var property := PropertyFromGetter(getterName);
            (stripped == [] <==> property == []) &&
            (stripped != [] ==> property[0] == LowerChar(stripped[0]))
  {
  }

  /** A one-word getter: `getId` gives `id`. */
  lemma OneWordExample()
    ensures PropertyFromGetter("getId") == "id"
  {
    var stripped := StripPrefix("getId");
    assert "getId"[..3] == "get";
    assert stripped == "Id";
    assert Snake(stripped) == "Id";
    assert Lower("Id") == "id";
  }

  /** Where the marking puts each character of `t`: the `j`th character lands
      after the `j` characters and the underscores of the capitals before it,
      and a capital is preceded by its own underscore. */
  lemma {:induction false} MarkCapitalsAt(t: string, j: nat)
    requires j < |t|
    ensures var p := j + Capitals(t[..j]);
            var marked := MarkCapitals(t);
            if IsUpper(t[j]) then p + 1 < |marked| && marked[p] == '_' && marked[p + 1] == t[j]
            else p < |marked| && marked[p] == t[j]
  {
    var head := if IsUpper(t[0]) then ['_', t[0]] else [t[0]];
    assert MarkCapitals(t) == head + MarkCapitals(t[1..]);
    if j > 0 {
      MarkCapitalsAt(t[1..], j - 1);
      assert t[1..][..j - 1] == t[1..j];
      assert t[..j][0] == t[0] && t[..j][1..] == t[1..j];
      assert Capitals(t[..j]) == |head| - 1 + Capitals(t[1..j]);
    }
  }

  /** The snake_case rule itself: every character of the stripped name after
      the first lands at its position plus the number of capitals before it
      (not counting the first character); a capital there is lowered and gets an
      underscore in front, any other character is copied. */
  lemma UnderscoreBeforeEveryInnerCapital(getterName: string, i: nat)
    requires 0 < i < |StripPrefix(getterName)|
    ensures var stripped := StripPrefix(getterName);
            var property := PropertyFromGetter(getterName);
            var p := i + Capitals(stripped[1..i]);
            if IsUpper(stripped[i]) then
              p + 1 < |property| && property[p] == '_' && property[p + 1] == LowerChar(stripped[i])
            else
              p < |property| && property[p] == stripped[i]
  {
    var stripped := StripPrefix(getterName);
    var tail := stripped[1..];
    MarkCapitalsAt(tail, i - 1);
    assert tail[..i - 1] == stripped[1..i];
    assert tail[i - 1] == stripped[i];
  }

  lemma {:induction false} MarkCapitalsConcat(a: string, b: string)
    ensures MarkCapitals(a + b) == MarkCapitals(a) + MarkCapitals(b)
  {
    if a == [] {
      assert a + b == b;
    } else {
      assert (a + b)[0] == a[0] && (a + b)[1..] == a[1..] + b;
      MarkCapitalsConcat(a[1..], b);
    }
  }

  lemma {:induction false} MarkCapitalsLowerCase(s: string)
    requires forall i :: 0 <= i < |s| ==> !IsUpper(s[i])
    ensures MarkCapitals(s) == s
  {
    if s != [] {
      MarkCapitalsLowerCase(s[1..]);
    }
  }

  /** A name without capitals is left as it is by lowering. */
  lemma LowerKeepsLowerCase(s: string)
    requires forall i :: 0 <= i < |s| ==> !IsUpper(s[i])
    ensures Lower(s) == s
  {
  }

  /** A getter named after two capitalised words gives the two words, lowered,
      joined by one underscore. */
  lemma TwoWordGetter(first: char, rest: string, second: char, tail: string)
    requires IsUpper(first) && IsUpper(second)
    requires forall i :: 0 <= i < |rest| ==> !IsUpper(rest[i])
    requires forall i :: 0 <= i < |tail| ==> !IsUpper(tail[i])
    ensures PropertyFromGetter("get" + [first] + rest + [second] + tail) ==
              [LowerChar(first)] + rest + "_" + [LowerChar(second)] + tail
  {
    var name := "get" + [first] + rest + [second] + tail;
    var stripped := [first] + rest + [second] + tail;
    assert name[..3] == "get" && name[3..] == stripped;
    assert StripPrefix(name) == stripped;
    TwoWordSnake(first, rest, second, tail);
    LowerConcat([first] + rest + ['_', second], tail);
    LowerConcat([first] + rest, ['_', second]);
    LowerConcat([first], rest);
    LowerKeepsLowerCase(rest);
    LowerKeepsLowerCase(tail);
  }

  lemma TwoWordSnake(first: char, rest: string, second: char, tail: string)
    requires IsUpper(second)
    requires forall i :: 0 <= i < |rest| ==> !IsUpper(rest[i])
    requires forall i :: 0 <= i < |tail| ==> !IsUpper(tail[i])
    ensures Snake([first] + rest + [second] + tail) == [first] + rest + ['_', second] + tail
  {
    var stripped := [first] + rest + [second] + tail;
    assert stripped[1..] == rest + ([second] + tail);
    MarkCapitalsConcat(rest, [second] + tail);
    MarkCapitalsLowerCase(rest);
    MarkCapitalsLowerCase(tail);
    assert ([second] + tail)[1..] == tail;
    assert MarkCapitals([second] + tail) == ['_', second] + tail;
  }

  /** `getTransactionId` gives `transaction_id`. */
  lemma TwoWordExample()
    ensures PropertyFromGetter("getTransactionId") == "transaction_id"
  {
    WordsOfTransactionId();
    TwoWordGetter('T', "ransaction", 'I', "d");
  }

  lemma WordsOfTransactionId()
    ensures forall i :: 0 <= i < |"ransaction"| ==> !IsUpper("ransaction"[i])
    ensures "getTransactionId" == "get" + ['T'] + "ransaction" + ['I'] + "d"
    ensures [LowerChar('T')] + "ransaction" + "_" + [LowerChar('I')] + "d" == "transaction_id"
  {
  }

  // ---------------------------------------------------------------------------
  // dump

  /** The filter of dump: a name starting with get, is or has, and no parameters. */
  predicate IsGetter(m: Getter)
  {
    (StartsWith(m.name, "get") || StartsWith(m.name, "is") || StartsWith(m.name, "has")) && m.arity == 0
  }

  /** array_filter over the class's methods, order kept. */
  function Getters(methods: seq<Getter>): (getters: seq<Getter>)
    ensures forall g :: g in getters <==> g in methods && IsGetter(g)
    ensures |getters| <= |methods|
  {
    if methods == [] then []
    else (if IsGetter(methods[0]) then [methods[0]] else []) + Getters(methods[1..])
  }

  /** The filter keeps the order of the methods and every occurrence: filtering
      a concatenation concatenates the filtered parts. */
  lemma {:induction false} GettersConcat(a: seq<Getter>, b: seq<Getter>)
    ensures Getters(a + b) == Getters(a) + Getters(b)
  {
    if a == [] {
      assert a + b == b;
    } else {
      assert (a + b)[0] == a[0] && (a + b)[1..] == a[1..] + b;
      GettersConcat(a[1..], b);
    }
  }

  function DigitChar(d: nat): char
    requires d < 10
  {
    ('0' as int + d) as char
  }

  /** The decimal digits of a natural number, most significant first. */
  function Digits(n: nat): (digits: string)
    ensures digits != [] && forall i :: 0 <= i < |digits| ==> '0' <= digits[i] <= '9'
  {
    if n < 10 then [DigitChar(n)] else Digits(n / 10) + [DigitChar(n % 10)]
  }

  /** (string) of an integer. */
  function Decimal(n: int): string
  {
    if n < 0 then "-" + Digits(-n) else Digits(n)
  }

  /** The value of a string of decimal digits. */
  function DigitsValue(s: string): nat
  {
    if s == [] then 0
    else DigitsValue(s[..|s| - 1]) * 10 + (if '0' <= s[|s| - 1] <= '9' then s[|s| - 1] as int - '0' as int else 0)
  }

  /** (int) of a decimal string with an optional minus sign. */
  function ParseDecimal(s: string): int
  {
    if s != [] && s[0] == '-' then -(DigitsValue(s[1..]) as int) else DigitsValue(s)
  }

  lemma {:induction false} DigitsRoundTrip(n: nat)
    ensures DigitsValue(Digits(n)) == n
  {
    if n >= 10 {
      DigitsRoundTrip(n / 10);
      var digits := Digits(n / 10) + [DigitChar(n % 10)];
      assert digits[..|digits| - 1] == Digits(n / 10);
    }
  }

  /** The string cast of an integer loses nothing: it parses back to the integer. */
  lemma DecimalRoundTrip(n: int)
    ensures ParseDecimal(Decimal(n)) == n
  {
    if n < 0 {
      DigitsRoundTrip(-n);
      assert ("-" + Digits(-n))[1..] == Digits(-n);
    } else {
      DigitsRoundTrip(n);
    }
  }

  /** The string a kept getter result is stored as: arrays as print_r renders
      them, then PHP's string cast. */
  function Render(v: Value): string
    requires !v.Obj?
  {
    match v
    case Str(t) => t
    case Int(n) => Decimal(n)
    case Float(t) => t
    case Bool(b) => if b then "1" else ""
    case Null => ""
    case Arr(printed) => printed
  }

  /** What the string cast keeps: true is "1" and false "", null is "", an
      integer parses back to itself, strings, the cast text of a float and
      print_r text are kept as they are. */
  lemma RenderCast(v: Value)
    requires !v.Obj?
    ensures v.Bool? ==> (Render(v) == "1" <==> v.flag) && (Render(v) == "" <==> !v.flag)
    ensures v.Null? ==> Render(v) == ""
    ensures v.Int? ==> ParseDecimal(Render(v)) == v.number
    ensures v.Str? ==> Render(v) == v.text
    ensures v.Float? ==> Render(v) == v.cast
    ensures v.Arr? ==> Render(v) == v.printed
  {
    if v.Int? {
      DecimalRoundTrip(v.number);
    }
  }

  /** The array the loop of dump builds from `getters`: objects skipped, every
      other result stored under its property name, a later getter overwriting an
      earlier one with the same property. */
  function DumpMap(getters: seq<Getter>): map<string, string>
  {
    if getters == [] then map[]
    else StoreResult(DumpMap(getters[..|getters| - 1]), getters[|getters| - 1])
  }

  /** One round of the loop of dump on the array built so far. */
  function StoreResult(getterResults: map<string, string>, getter: Getter): map<string, string>
  {
    if getter.value.Obj? then getterResults
    else getterResults[PropertyFromGetter(getter.name) := Render(getter.value)]
  }

  lemma StoreResultAt(getterResults: map<string, string>, getter: Getter, key: string)
    ensures key in StoreResult(getterResults, getter) <==> key in getterResults || Maps(getter, key)
    ensures Maps(getter, key) ==> StoreResult(getterResults, getter)[key] == Render(getter.value)
    ensures !Maps(getter, key) && key in getterResults ==> StoreResult(getterResults, getter)[key] == getterResults[key]
  {
  }

  /** Getter `g` is kept by the loop and stored under `key`. */
  predicate Maps(g: Getter, key: string)
  {
    !g.value.Obj? && PropertyFromGetter(g.name) == key
  }

  lemma {:induction false} DumpKeysFromGetters(getters: seq<Getter>, key: string)
    requires key in DumpMap(getters)
    ensures exists j :: 0 <= j < |getters| && Maps(getters[j], key)
  {
    var n := |getters| - 1;
    var prefix := getters[..n];
    assert DumpMap(getters) == StoreResult(DumpMap(prefix), getters[n]);
    StoreResultAt(DumpMap(prefix), getters[n], key);
    if !Maps(getters[n], key) {
      DumpKeysFromGetters(prefix, key);
      var j :| 0 <= j < |prefix| && Maps(prefix[j], key);
      assert getters[j] == prefix[j];
    }
  }

  lemma {:induction false} GettersGiveDumpKeys(getters: seq<Getter>, key: string, j: nat)
    requires j < |getters| && Maps(getters[j], key)
    ensures key in DumpMap(getters)
  {
    var n := |getters| - 1;
    var prefix := getters[..n];
    assert DumpMap(getters) == StoreResult(DumpMap(prefix), getters[n]);
    StoreResultAt(DumpMap(prefix), getters[n], key);
    if j < n {
      assert prefix[j] == getters[j];
      GettersGiveDumpKeys(prefix, key, j);
    }
  }

  /** A property is in the dump exactly when some getter with a non-object
      result maps to it. */
  lemma DumpKeys(getters: seq<Getter>, key: string)
    ensures key in DumpMap(getters) <==> exists j :: 0 <= j < |getters| && Maps(getters[j], key)
  {
    if key in DumpMap(getters) {
      DumpKeysFromGetters(getters, key);
    }
    if exists j :: 0 <= j < |getters| && Maps(getters[j], key) {
      var j :| 0 <= j < |getters| && Maps(getters[j], key);
      GettersGiveDumpKeys(getters, key, j);
    }
  }

  /** The stored value of a property is that of the last getter mapping to it. */
  lemma {:induction false} LastGetterWins(getters: seq<Getter>, key: string, j: nat)
    requires j < |getters| && Maps(getters[j], key)
    requires forall k :: j < k < |getters| ==> !Maps(getters[k], key)
    ensures key in DumpMap(getters) && DumpMap(getters)[key] == Render(getters[j].value)
  {
    var n := |getters| - 1;
    var prefix := getters[..n];
    assert DumpMap(getters) == StoreResult(DumpMap(prefix), getters[n]);
    StoreResultAt(DumpMap(prefix), getters[n], key);
    if j < n {
      assert prefix[j] == getters[j];
      assert forall k :: j < k < |prefix| ==> prefix[k] == getters[k];
      LastGetterWins(prefix, key, j);
    }
  }

  // ---------------------------------------------------------------------------
  // ksort

  /** Byte-wise string order, as PHP compares non-numeric keys. */
  predicate LexLess(a: string, b: string)
  {
    if a == [] then b != []
    else b != [] && (a[0] < b[0] || (a[0] == b[0] && LexLess(a[1..], b[1..])))
  }

  lemma {:induction false} LexIrreflexive(a: string)
    ensures !LexLess(a, a)
  {
    if a != [] {
      LexIrreflexive(a[1..]);
    }
  }

  lemma {:induction false} LexTransitive(a: string, b: string, c: string)
    requires LexLess(a, b) && LexLess(b, c)
    ensures LexLess(a, c)
  {
    if a != [] && a[0] == b[0] && b[0] == c[0] {
      LexTransitive(a[1..], b[1..], c[1..]);
    }
  }

  lemma {:induction false} LexTotal(a: string, b: string)
    requires a != b
    ensures LexLess(a, b) || LexLess(b, a)
  {
    if a != [] && b != [] && a[0] == b[0] {
      assert a == [a[0]] + a[1..] && b == [b[0]] + b[1..];
      LexTotal(a[1..], b[1..]);
    }
  }

  predicate StrictlySorted(keys: seq<string>)
  {
    forall i, j :: 0 <= i < j < |keys| ==> LexLess(keys[i], keys[j])
  }

  predicate Distinct(keys: seq<string>)
  {
    forall i, j :: 0 <= i < j < |keys| ==> keys[i] != keys[j]
  }

  /** Puts a new key into its place in sorted keys. */
  function Insert(sorted: seq<string>, key: string): (inserted: seq<string>)
    requires StrictlySorted(sorted) && key !in sorted
    ensures StrictlySorted(inserted)
    ensures |inserted| == |sorted| + 1
    ensures forall k :: k in inserted <==> k in sorted || k == key
  {
    if sorted == [] then [key]
    else if LexLess(key, sorted[0]) then
      InsertFrontSorted(sorted, key);
      [key] + sorted
    else
      LexTotal(key, sorted[0]);
      var rest := Insert(sorted[1..], key);
      assert forall k :: k in rest ==> LexLess(sorted[0], k) by {
        forall k | k in rest ensures LexLess(sorted[0], k) {
          if k != key {
            var i :| 0 <= i < |sorted[1..]| && sorted[1..][i] == k;
            assert sorted[i + 1] == k;
          }
        }
      }
      [sorted[0]] + rest
  }

  lemma InsertFrontSorted(sorted: seq<string>, key: string)
    requires StrictlySorted(sorted) && sorted != [] && LexLess(key, sorted[0])
    ensures StrictlySorted([key] + sorted)
  {
    forall j | 0 < j < |sorted|
      ensures LexLess(key, sorted[j])
    {
      LexTransitive(key, sorted[0], sorted[j]);
    }
  }

  /** ksort on the keys: the same keys in ascending order. */
  function KSort(keys: seq<string>): (sorted: seq<string>)
    requires Distinct(keys)
    ensures StrictlySorted(sorted)
    ensures |sorted| == |keys|
    ensures forall k :: k in sorted <==> k in keys
  {
    if keys == [] then []
    else
      var n := |keys| - 1;
      assert keys[n] !in keys[..n];
      assert keys == keys[..n] + [keys[n]];
      Insert(KSort(keys[..n]), keys[n])
  }

  /** A PHP array as keys in order and values by key: every key of the values
      listed exactly once. */
  ghost predicate OrderedArray(keys: seq<string>, values: map<string, string>)
  {
    Distinct(keys) && forall k :: k in values <==> k in keys
  }

  /** `$array[$key] = $value` keeps the array well formed: a new key goes to the
      end, an existing one keeps its place. */
  lemma AssignKeepsOrder(keys: seq<string>, values: map<string, string>, key: string, value: string)
    requires OrderedArray(keys, values)
    ensures OrderedArray(if key in values then keys else keys + [key], values[key := value])
  {
  }

  /** The foreach of dump: every getter's result stored under its property
      name, objects skipped. */
  method CollectResults(getters: seq<Getter>) returns (keys: seq<string>, getterResults: map<string, string>)
    ensures getterResults == DumpMap(getters)
    ensures OrderedArray(keys, getterResults)
  {
    keys, getterResults := [], map[];
    var i := 0;
    while i < |getters|
      invariant 0 <= i <= |getters|
      invariant getterResults == DumpMap(getters[..i])
      invariant OrderedArray(keys, getterResults)
    {
      var getter := getters[i];
      assert DumpMap(getters[..i + 1]) == StoreResult(DumpMap(getters[..i]), getter) by {
        assert getters[..i + 1][..i] == getters[..i];
      }
      i := i + 1;
      if getter.value.Obj? {
        continue;
      }
      var property := PropertyFromGetter(getter.name);
      var value := Render(getter.value);
      AssignKeepsOrder(keys, getterResults, property, value);
      if property !in getterResults {
        keys := keys + [property];
      }
      getterResults := getterResults[property := value];
    }
    assert getters[..i] == getters;
  }

  /** dump: the result array as its keys in order and its values by key. */
  method Dump(methods: seq<Getter>) returns (keys: seq<string>, getterResults: map<string, string>)
    ensures getterResults == DumpMap(Getters(methods))
    ensures StrictlySorted(keys)
    ensures forall k :: k in getterResults <==> k in keys
  {
    var getters := Getters(methods);
    keys, getterResults := CollectResults(getters);
    keys := KSort(keys);
  }
}
