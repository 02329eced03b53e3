/** Key names at the HTTP boundary (src/shared/utils/case.util.ts): snake_case outside,
    camelCase inside. */
module KeyCase {

  predicate Lower(c: char) { 'a' <= c <= 'z' }
  predicate Upper(c: char) { 'A' <= c <= 'Z' }
  predicate Digit(c: char) { '0' <= c <= '9' }

  function ToLower(c: char): char { if Upper(c) then (c as int + 32) as char else c }
  function ToUpper(c: char): char { if Lower(c) then (c as int - 32) as char else c }

  /** [a-zA-Z0-9]* */
  predicate Alphanumeric(s: string) {
    forall i :: 0 <= i < |s| ==> Lower(s[i]) || Upper(s[i]) || Digit(s[i])
  }

  /** [a-z0-9_]* in which every underscore is followed by a letter or a digit */
  predicate Underscored(s: string) {
    s == "" ||
    (Underscored(s[1..]) && (Lower(s[0]) || Digit(s[0]) || (s[0] == '_' && |s| > 1 && s[1] != '_')))
  }

  /** ^[a-z][a-zA-Z0-9]*$ */
  predicate CamelWord(k: string) {
    |k| > 0 && Lower(k[0]) && Alphanumeric(k)
  }

  /** ^[a-z][a-z0-9]*(_[a-z0-9]+)+$ */
  predicate SnakeWord(k: string) {
    |k| > 0 && Lower(k[0]) && Underscored(k) && '_' in k
  }

  /** replace(/[A-Z]/g, c => '_' + c.toLowerCase()) */
  function Expand(s: string): string {
    if s == "" then ""
    else (if Upper(s[0]) then ['_', ToLower(s[0])] else [s[0]]) + Expand(s[1..])
  }

  /** replace(/_([a-z0-9])/g, (_, c) => c.toUpperCase()) */
  function Fold(s: string): string {
    if s == "" then ""
    else if s[0] == '_' && |s| > 1 && (Lower(s[1]) || Digit(s[1])) then [ToUpper(s[1])] + Fold(s[2..])
    else [s[0]] + Fold(s[1..])
  }

  function ToSnake(k: string): string { if CamelWord(k) then Expand(k) else k }
  function ToCamel(k: string): string { if SnakeWord(k) then Fold(k) else k }

  lemma {:induction false} FoldExpand(s: string)
    requires Alphanumeric(s)
    ensures Fold(Expand(s)) == s
  {
    if s != "" {
      FoldExpand(s[1..]);
      if Upper(s[0]) { assert Expand(s)[2..] == Expand(s[1..]); } else { assert Expand(s)[1..] == Expand(s[1..]); }
    }
  }

  /** A character, expanded, in front of a text that is already in underscore form. */
  lemma ExpandPiece(c: char, e: string)
    requires (Lower(c) || Upper(c) || Digit(c)) && Underscored(e)
    ensures Underscored((if Upper(c) then ['_', ToLower(c)] else [c]) + e)
  {
    var piece := (if Upper(c) then ['_', ToLower(c)] else [c]) + e;
    if Upper(c) {
      assert piece[1..] == [ToLower(c)] + e;
      assert piece[1..][1..] == e;
    } else {
      assert piece[1..] == e;
    }
  }

  lemma {:induction false} ExpandForm(s: string)
    requires Alphanumeric(s)
    ensures Underscored(Expand(s))
    ensures '_' !in Expand(s) ==> Expand(s) == s
    ensures s != "" && !Upper(s[0]) ==> |Expand(s)| > 0 && Expand(s)[0] == s[0]
  {
    if s != "" {
      ExpandForm(s[1..]);
      ExpandPiece(s[0], Expand(s[1..]));
      if Upper(s[0]) {
        assert Expand(s)[0] == '_';
      } else {
        assert forall c :: c in Expand(s[1..]) ==> c in Expand(s);
      }
    }
  }

  predicate DigitFree(s: string) {
    forall i :: 0 <= i < |s| ==> !Digit(s[i])
  }

  /** One character, or an underscore and the one after it, folded and expanded again. */
  lemma FoldPiece(s: string, rest: string, folded: string)
    requires s != "" && Underscored(s) && rest == if s[0] == '_' then s[2..] else s[1..]
    requires '_' !in folded && (DigitFree(folded) ==> Expand(folded) == rest)
    ensures var whole := [if s[0] == '_' then ToUpper(s[1]) else s[0]] + folded;
            '_' !in whole && (DigitFree(whole) ==> Expand(whole) == s)
  {
    var c := if s[0] == '_' then ToUpper(s[1]) else s[0];
    var whole := [c] + folded;
    assert whole[1..] == folded;
    if DigitFree(whole) {
      assert forall i :: 0 <= i < |folded| ==> folded[i] == whole[i + 1];
      assert !Digit(whole[0]);
      assert s == (if s[0] == '_' then ['_', s[1]] else [s[0]]) + rest;
    }
  }

  lemma {:induction false} FoldForm(s: string)
    requires Underscored(s)
    ensures '_' !in Fold(s)
    ensures DigitFree(Fold(s)) ==> Expand(Fold(s)) == s
    decreases |s|
  {
    if s != "" {
      var rest := if s[0] == '_' then s[2..] else s[1..];
      if s[0] == '_' { assert s[1..][1..] == s[2..]; }
      FoldForm(rest);
      FoldPiece(s, rest, Fold(rest));
    }
  }

  /** A key survives the trip out and back exactly when it is not in snake form already. */
  lemma KeyRoundTrip(k: string)
    ensures ToCamel(ToSnake(k)) == k <==> !SnakeWord(k)
  {
    if SnakeWord(k) {
      var i :| 0 <= i < |k| && k[i] == '_';
      assert !Alphanumeric(k);
      FoldForm(k);
    } else if CamelWord(k) {
      ExpandForm(k);
      FoldExpand(k);
    }
  }

  lemma ToSnakeTwice(k: string)
    ensures ToSnake(ToSnake(k)) == ToSnake(k)
  {
    if CamelWord(k) {
      ExpandForm(k);
      if i :| 0 <= i < |Expand(k)| && Expand(k)[i] == '_' { assert !Alphanumeric(Expand(k)); }
    }
  }

  lemma ToCamelTwice(k: string)
    ensures ToCamel(ToCamel(k)) == ToCamel(k) && !SnakeWord(ToCamel(k))
  {
    if SnakeWord(k) { FoldForm(k); }
  }

  // ---- Opaque keys: what is below them is data, not schema ----

  const OPAQUE_KEYS: set<string> := {
    "payload", "metadata", "personalisation_data", "personalisationData",
    "rendered_content", "renderedContent", "channels", "details"
  }

  lemma {:induction false} ExpandConcat(a: string, b: string)
    ensures Expand(a + b) == Expand(a) + Expand(b)
  {
    if a == "" {
      assert a + b == b;
    } else {
      assert (a + b)[1..] == a[1..] + b;
      ExpandConcat(a[1..], b);
    }
  }

  predicate Plain(s: string) {
    forall i :: 0 <= i < |s| ==> Lower(s[i])
  }

  lemma {:induction false} PlainForm(a: string)
    requires Plain(a)
    ensures Expand(a) == a && Alphanumeric(a) && '_' !in a
  {
    if a != "" { PlainForm(a[1..]); }
  }

  lemma ExpandTail(x: char, b: string)
    requires Lower(x) && Plain(b)
    ensures Expand([ToUpper(x)] + b) == ['_', x] + b
  {
    PlainForm(b);
    assert ([ToUpper(x)] + b)[1..] == b;
  }

  lemma ExpandJoin(a: string, x: char, b: string)
    requires Plain(a) && Lower(x) && Plain(b)
    ensures Expand(a + [ToUpper(x)] + b) == a + ['_', x] + b
  {
    PlainForm(a);
    ExpandTail(x, b);
    ExpandConcat(a, [ToUpper(x)] + b);
    assert a + [ToUpper(x)] + b == a + ([ToUpper(x)] + b);
  }

  lemma JoinedForm(a: string, x: char, b: string)
    requires a != "" && Plain(a) && Lower(x) && Plain(b)
    ensures CamelWord(a + [ToUpper(x)] + b)
    ensures !CamelWord(a + ['_', x] + b)
    ensures forall i :: 0 <= i < |a + [ToUpper(x)] + b| ==> (a + [ToUpper(x)] + b)[i] != '_'
    ensures forall i :: 0 <= i < |a + [ToUpper(x)] + b| ==> !Digit((a + [ToUpper(x)] + b)[i])
  {
    assert (a + ['_', x] + b)[|a|] == '_';
  }

  /** One word joined to another: aX in camelCase, a_x in snake_case. */
  lemma TwoWords(a: string, x: char, b: string)
    requires a != "" && Plain(a) && Lower(x) && Plain(b)
    ensures ToSnake(a + [ToUpper(x)] + b) == a + ['_', x] + b
    ensures ToCamel(a + ['_', x] + b) == a + [ToUpper(x)] + b
    ensures ToSnake(a + ['_', x] + b) == a + ['_', x] + b
    ensures ToCamel(a + [ToUpper(x)] + b) == a + [ToUpper(x)] + b
  {
    JoinedForm(a, x, b);
    ExpandJoin(a, x, b);
    var w := a + [ToUpper(x)] + b;
    assert '_' !in w;
    KeyRoundTrip(w);
  }

  datatype Word = One(text: string) | Two(first: string, initial: char, rest: string)

  const DATA := Two("personalisation", 'd', "ata")
  const CONTENT := Two("rendered", 'c', "ontent")

  function SnakeForm(w: Word): string {
    match w case One(t) => t case Two(a, x, b) => a + ['_', x] + b
  }

  function CamelForm(w: Word): string {
    match w case One(t) => t case Two(a, x, b) => a + [ToUpper(x)] + b
  }

  lemma Spelling()
    ensures SnakeForm(DATA) == "personalisation_data" && CamelForm(DATA) == "personalisationData"
    ensures SnakeForm(CONTENT) == "rendered_content" && CamelForm(CONTENT) == "renderedContent"
  {
  }

  /** Each opaque key is a single word, or one of the two spellings of a compound one. */
  lemma OpaqueWord(k: string) returns (w: Word)
    requires k in OPAQUE_KEYS
    ensures k == SnakeForm(w) || k == CamelForm(w)
    ensures w.One? ==> Plain(k) && k != ""
    ensures w.Two? ==> w == DATA || w == CONTENT
  {
    Spelling();
    if k == "personalisation_data" || k == "personalisationData" { w := DATA; }
    else if k == "rendered_content" || k == "renderedContent" { w := CONTENT; }
    else { w := One(k); PlainOnes(k); }
  }

  lemma PlainOnes(k: string)
    requires k == "payload" || k == "metadata" || k == "channels" || k == "details"
    ensures Plain(k) && k != ""
  {
  }

  lemma CompoundParts(w: Word)
    requires w == DATA || w == CONTENT
    ensures Plain(w.first) && w.first != "" && Plain(w.rest) && Lower(w.initial)
  {
  }

  lemma CompoundsAreOpaque(w: Word)
    requires w == DATA || w == CONTENT
    ensures SnakeForm(w) in OPAQUE_KEYS && CamelForm(w) in OPAQUE_KEYS
  {
    Spelling();
  }

  lemma OpaqueStaysOpaque(k: string)
    requires k in OPAQUE_KEYS
    ensures ToSnake(k) in OPAQUE_KEYS && ToCamel(k) in OPAQUE_KEYS
  {
    var w := OpaqueWord(k);
    if w.One? {
      PlainForm(k);
    } else {
      CompoundsAreOpaque(w);
      CompoundParts(w);
      TwoWords(w.first, w.initial, w.rest);
    }
  }

  datatype Style = Snake | Camel

  function Rename(style: Style, k: string): string {
    if style == Snake then ToSnake(k) else ToCamel(k)
  }

  /** Renaming neither makes a key opaque nor stops it from being opaque. */
  lemma RenamingKeepsOpacity(style: Style, k: string)
    ensures Rename(style, k) in OPAQUE_KEYS <==> k in OPAQUE_KEYS
  {
    if k in OPAQUE_KEYS {
      OpaqueStaysOpaque(k);
    } else if Rename(style, k) in OPAQUE_KEYS {
      OpaqueStaysOpaque(Rename(style, k));
      OpaqueOrigin(style, k);
    }
  }

  lemma OpaqueOrigin(style: Style, k: string)
    requires Rename(style, k) in OPAQUE_KEYS
    ensures k == Rename(style, k) || k == ToCamel(Rename(style, k)) || k == ToSnake(Rename(style, k))
  {
    if style == Snake {
      KeyRoundTrip(k);
    } else if SnakeWord(k) {
      FoldForm(k);
      var w := OpaqueWord(ToCamel(k));
      WordHasNoDigit(w, ToCamel(k));
    }
  }

  lemma WordHasNoDigit(w: Word, k: string)
    requires k == SnakeForm(w) || k == CamelForm(w)
    requires w.One? ==> Plain(k) && k != ""
    requires w.Two? ==> w == DATA || w == CONTENT
    requires '_' !in k
    ensures CamelWord(k) && forall i :: 0 <= i < |k| ==> !Digit(k[i])
  {
    if w.One? {
    } else {
      CompoundParts(w);
      JoinedForm(w.first, w.initial, w.rest);
      assert SnakeForm(w)[|w.first|] == '_';
    }
  }

  // ---- Whole values ----

  datatype Field = Field(key: string, value: Json)

  /** `Special` stands for anything that is neither an object read from JSON nor an array, such
      as a Date; `Odd` is an object whose prototype was replaced, which is no longer plain. */
  datatype Json = Null | Bool(b: bool) | Num(n: real) | Str(s: string) | Special(tag: int)
                | Arr(items: seq<Json>) | Obj(fields: seq<Field>) | Odd(fields: seq<Field>)

  /** Assigning to this key sets the prototype, if the value can be one, and no field. */
  const PROTO := "__proto__"

  predicate SetsPrototype(f: Field) {
    f.key == PROTO && IsPrototype(f.value)
  }

  predicate ReplacesPrototype(fields: seq<Field>) {
    exists f :: f in fields && SetsPrototype(f)
  }

  /** Null would be one as well, but leaves the object plain. */
  predicate IsPrototype(v: Json) {
    v.Arr? || v.Obj? || v.Odd? || v.Special?
  }

  lemma RenameAvoidsProto(style: Style, k: string)
    ensures Rename(style, k) == PROTO <==> k == PROTO
  {
    assert PROTO[0] == '_';
    if style == Snake && CamelWord(k) {
      ExpandForm(k);
      assert Rename(style, k)[0] == k[0] && Lower(k[0]);
    } else if style == Camel && SnakeWord(k) {
      assert Rename(style, k)[0] == k[0] && Lower(k[0]);
    }
  }

  /** out[key] = value: a new key goes last, an existing one keeps its place. */
  function Put(fields: seq<Field>, key: string, value: Json): seq<Field> {
    if fields == [] then [Field(key, value)]
    else if fields[0].key == key then [Field(key, value)] + fields[1..]
    else [fields[0]] + Put(fields[1..], key, value)
  }

  function Convert(v: Json, style: Style): Json
    decreases v
  {
    match v
    case Arr(items) => Arr(ConvertItems(items, style))
    case Obj(fields) =>
      var out := ConvertFields(fields, style);
      if ReplacesPrototype(fields) then Odd(out) else Obj(out)
    case _ => v
  }

  function ConvertItems(items: seq<Json>, style: Style): (r: seq<Json>)
    decreases items
  {
    if items == [] then [] else ConvertItems(items[..|items| - 1], style) + [Convert(items[|items| - 1], style)]
  }

  function ConvertValue(f: Field, style: Style): Json
    decreases f, 1
  {
    if f.key in OPAQUE_KEYS then f.value else Convert(f.value, style)
  }

  function ConvertFields(fields: seq<Field>, style: Style): seq<Field>
    decreases fields
  {
    if fields == [] then []
    else
      var before, last := ConvertFields(fields[..|fields| - 1], style), fields[|fields| - 1];
      if Rename(style, last.key) == PROTO then before
      else Put(before, Rename(style, last.key), ConvertValue(last, style))
  }

  /** One more field assigned, or prototype set. */
  lemma PrototypeNext(fields: seq<Field>, i: nat)
    requires i < |fields|
    ensures ReplacesPrototype(fields[..i + 1]) <==> ReplacesPrototype(fields[..i]) || SetsPrototype(fields[i])
  {
    assert fields[..i + 1] == fields[..i] + [fields[i]];
  }

  lemma FieldsNext(fields: seq<Field>, style: Style, i: nat)
    requires i < |fields|
    ensures ConvertFields(fields[..i + 1], style)
         == if fields[i].key == PROTO then ConvertFields(fields[..i], style)
            else Put(ConvertFields(fields[..i], style), Rename(style, fields[i].key), ConvertValue(fields[i], style))
    ensures Rename(style, fields[i].key) == PROTO <==> fields[i].key == PROTO
  {
    assert fields[..i + 1][..i] == fields[..i];
    RenameAvoidsProto(style, fields[i].key);
  }

  /** value.map(...) */
  method ConvertEach(items: seq<Json>, style: Style) returns (out: seq<Json>)
    ensures out == ConvertItems(items, style)
    decreases items
  {
    out := [];
    for i := 0 to |items|
      invariant out == ConvertItems(items[..i], style)
    {
      assert items[..i + 1][..i] == items[..i];
      var item := ConvertKeys(items[i], style);
      out := out + [item];
    }
    assert items[..|items|] == items;
  }

  /** opaque.has(key) ? val : convert(val) */
  method ConvertEntry(f: Field, style: Style) returns (value: Json)
    ensures value == ConvertValue(f, style) && IsPrototype(value) == IsPrototype(f.value)
    decreases f, 1
  {
    value := f.value;
    if f.key !in OPAQUE_KEYS { value := ConvertKeys(f.value, style); }
  }

  /** for (const [key, val] of Object.entries(value)) */
  method ConvertEntries(fields: seq<Field>, style: Style) returns (out: seq<Field>, plain: bool)
    ensures out == ConvertFields(fields, style) && plain == !ReplacesPrototype(fields)
    decreases fields
  {
    out, plain := [], true;
    for i := 0 to |fields|
      invariant out == ConvertFields(fields[..i], style) && plain == !ReplacesPrototype(fields[..i])
    {
      PrototypeNext(fields, i);
      FieldsNext(fields, style, i);
      var key := Rename(style, fields[i].key);
      var value := ConvertEntry(fields[i], style);
      if key != PROTO {
        out := Put(out, key, value);
      } else if IsPrototype(value) {
        plain := false;
      }
    }
    assert fields[..|fields|] == fields;
  }

  method ConvertKeys(v: Json, style: Style) returns (r: Json)
    ensures r == Convert(v, style)
    decreases v
  {
    match v
    case Arr(items) =>
      var out := ConvertEach(items, style);
      r := Arr(out);
    case Obj(fields) =>
      var out, plain := ConvertEntries(fields, style);
      r := if plain then Obj(out) else Odd(out);
    case _ => r := v;
  }

  /** Objects have distinct keys, as every object read from JSON does. */
  ghost predicate Distinct(fields: seq<Field>) {
    forall i, j :: 0 <= i < j < |fields| ==> fields[i].key != fields[j].key
  }

  ghost predicate WellFormed(v: Json)
    decreases v
  {
    match v
    case Arr(items) => forall i :: 0 <= i < |items| ==> WellFormed(items[i])
    case Obj(fields) =>
      Distinct(fields) &&
      forall i :: 0 <= i < |fields| ==> fields[i].key in OPAQUE_KEYS || WellFormed(fields[i].value)
    case _ => true
  }

  /** No key is in snake form or names the prototype, except below an opaque key. */
  ghost predicate NoLostKeys(v: Json)
    decreases v
  {
    match v
    case Arr(items) => forall i :: 0 <= i < |items| ==> NoLostKeys(items[i])
    case Obj(fields) =>
      forall i :: 0 <= i < |fields| ==>
        && !SnakeWord(fields[i].key) && fields[i].key != PROTO
        && (fields[i].key in OPAQUE_KEYS || NoLostKeys(fields[i].value))
    case _ => true
  }

  /** A value in which every key that could be renamed already has its final name. */
  ghost predicate Settled(v: Json, style: Style)
    decreases v
  {
    match v
    case Arr(items) => forall i :: 0 <= i < |items| ==> Settled(items[i], style)
    case Obj(fields) => Distinct(fields) && forall i :: 0 <= i < |fields| ==> SettledField(fields[i], style)
    case _ => true
  }

  ghost predicate SettledField(f: Field, style: Style)
    decreases f
  {
    Rename(style, f.key) == f.key && f.key != PROTO && (f.key in OPAQUE_KEYS || Settled(f.value, style))
  }

  lemma {:induction false} PutElements(fields: seq<Field>, key: string, value: Json)
    ensures forall f :: f in Put(fields, key, value) ==> f in fields || f == Field(key, value)
    ensures (forall f :: f in fields ==> f.key != key) ==> Put(fields, key, value) == fields + [Field(key, value)]
  {
    if fields != [] {
      PutElements(fields[1..], key, value);
      assert fields == [fields[0]] + fields[1..];
      if fields[0].key != key {
        assert Put(fields, key, value) == [fields[0]] + Put(fields[1..], key, value);
      }
    }
  }

  lemma DistinctFront(first: Field, rest: seq<Field>)
    requires Distinct(rest) && forall f :: f in rest ==> f.key != first.key
    ensures Distinct([first] + rest)
  {
    forall i, j | 0 <= i < j < |[first] + rest| ensures ([first] + rest)[i].key != ([first] + rest)[j].key {
      assert ([first] + rest)[j] == rest[j - 1];
    }
  }

  lemma {:induction false} PutDistinct(fields: seq<Field>, key: string, value: Json)
    requires Distinct(fields)
    ensures Distinct(Put(fields, key, value))
  {
    if fields != [] {
      var rest := fields[1..];
      forall f | f in rest ensures f.key != fields[0].key {
        var i :| 0 <= i < |rest| && rest[i] == f;
        assert f == fields[i + 1];
      }
      if fields[0].key == key {
        DistinctFront(Field(key, value), rest);
      } else {
        PutDistinct(rest, key, value);
        PutElements(rest, key, value);
        DistinctFront(fields[0], Put(rest, key, value));
      }
    }
  }

  lemma PutFields(fields: seq<Field>, key: string, value: Json)
    ensures var p := Put(fields, key, value);
            && (forall f :: f in p ==> f in fields || f == Field(key, value))
            && (Distinct(fields) ==> Distinct(p))
            && ((forall f :: f in fields ==> f.key != key) ==> p == fields + [Field(key, value)])
  {
    PutElements(fields, key, value);
    if Distinct(fields) { PutDistinct(fields, key, value); }
  }

  lemma {:induction false} ConvertedField(fields: seq<Field>, style: Style, f: Field) returns (i: nat)
    requires f in ConvertFields(fields, style)
    ensures i < |fields| && f == Field(Rename(style, fields[i].key), ConvertValue(fields[i], style))
    ensures f.key != PROTO
  {
    var before, last := fields[..|fields| - 1], fields[|fields| - 1];
    if Rename(style, last.key) != PROTO {
      PutFields(ConvertFields(before, style), Rename(style, last.key), ConvertValue(last, style));
    }
    if f in ConvertFields(before, style) { i := ConvertedField(before, style, f); } else { i := |fields| - 1; }
  }

  lemma {:induction false} ConvertedDistinct(fields: seq<Field>, style: Style)
    ensures Distinct(ConvertFields(fields, style))
  {
    if fields != [] {
      var before, last := fields[..|fields| - 1], fields[|fields| - 1];
      ConvertedDistinct(before, style);
      PutFields(ConvertFields(before, style), Rename(style, last.key), ConvertValue(last, style));
    }
  }

  lemma {:induction false} ItemsPointwise(items: seq<Json>, style: Style)
    ensures |ConvertItems(items, style)| == |items|
    ensures forall i :: 0 <= i < |items| ==> ConvertItems(items, style)[i] == Convert(items[i], style)
  {
    if items != [] { ItemsPointwise(items[..|items| - 1], style); }
  }

  lemma RenameTwice(style: Style, k: string)
    ensures Rename(style, Rename(style, k)) == Rename(style, k)
  {
    if style == Snake { ToSnakeTwice(k); } else { ToCamelTwice(k); }
  }

  /** Whatever goes in, what comes out is settled, even where keys collided on the way. */
  lemma {:induction false} ConvertSettles(v: Json, style: Style)
    ensures Settled(Convert(v, style), style)
    decreases v
  {
    match v
    case Arr(items) =>
      ItemsPointwise(items, style);
      forall i | 0 <= i < |items| ensures Settled(Convert(items[i], style), style) {
        ConvertSettles(items[i], style);
      }
    case Obj(fields) =>
      var out := ConvertFields(fields, style);
      ConvertedDistinct(fields, style);
      forall j | 0 <= j < |out| ensures SettledField(out[j], style) {
        var i := ConvertedField(fields, style, out[j]);
        RenameTwice(style, fields[i].key);
        RenamingKeepsOpacity(style, fields[i].key);
        ConvertSettles(fields[i].value, style);
      }
    case _ =>
  }

  lemma {:induction false} SettledIsFixed(v: Json, style: Style)
    requires Settled(v, style)
    ensures Convert(v, style) == v
    decreases v
  {
    match v
    case Arr(items) =>
      ItemsPointwise(items, style);
      forall i | 0 <= i < |items| ensures Convert(items[i], style) == items[i] {
        SettledIsFixed(items[i], style);
      }
      assert ConvertItems(items, style) == items;
    case Obj(fields) =>
      forall i | 0 <= i < |fields| ensures FixedField(fields[i], style) {
        assert SettledField(fields[i], style);
        if fields[i].key !in OPAQUE_KEYS { SettledIsFixed(fields[i].value, style); }
      }
      FixedFields(fields, style);
    case _ =>
  }

  predicate FixedField(f: Field, style: Style) {
    Rename(style, f.key) == f.key && f.key != PROTO && ConvertValue(f, style) == f.value
  }

  lemma DistinctPrefix(fields: seq<Field>, n: nat)
    requires Distinct(fields) && n < |fields|
    ensures Distinct(fields[..n])
    ensures forall f :: f in fields[..n] ==> f.key != fields[n].key
  {
  }

  lemma {:induction false} FixedFields(fields: seq<Field>, style: Style)
    requires Distinct(fields)
    requires forall f :: f in fields ==> FixedField(f, style)
    ensures ConvertFields(fields, style) == fields
  {
    if fields != [] {
      var before, last := fields[..|fields| - 1], fields[|fields| - 1];
      assert FixedField(last, style);
      DistinctPrefix(fields, |fields| - 1);
      FixedFields(before, style);
      PutFields(before, last.key, last.value);
      assert fields == before + [last];
    }
  }

  /** Both conversions are idempotent, on every value. */
  lemma ConvertIsIdempotent(v: Json, style: Style)
    ensures Convert(Convert(v, style), style) == Convert(v, style)
  {
    ConvertSettles(v, style);
    SettledIsFixed(Convert(v, style), style);
  }

  /** Renaming makes no two keys of the object equal, and none names the prototype. */
  ghost predicate Apart(fields: seq<Field>, style: Style) {
    && (forall i, j :: 0 <= i < j < |fields| ==> Rename(style, fields[i].key) != Rename(style, fields[j].key))
    && forall f :: f in fields ==> KeepsKey(f, style)
  }

  predicate KeepsKey(f: Field, style: Style) {
    Rename(style, f.key) != PROTO
  }

  lemma NoCollision(fields: seq<Field>, style: Style)
    requires fields != []
    requires Apart(fields, style)
    ensures var before, last := fields[..|fields| - 1], fields[|fields| - 1];
            ConvertFields(fields, style)
            == ConvertFields(before, style) + [Field(Rename(style, last.key), ConvertValue(last, style))]
  {
    var before, last := fields[..|fields| - 1], fields[|fields| - 1];
    assert KeepsKey(last, style);
    forall f | f in ConvertFields(before, style) ensures f.key != Rename(style, last.key) {
      var i := ConvertedField(before, style, f);
      assert before[i] == fields[i];
    }
    PutFields(ConvertFields(before, style), Rename(style, last.key), ConvertValue(last, style));
  }

  lemma {:induction false} SameLength(fields: seq<Field>, style: Style)
    requires Apart(fields, style)
    ensures |ConvertFields(fields, style)| == |fields|
  {
    if fields != [] {
      NoCollision(fields, style);
      ApartPrefix(fields, style);
      SameLength(fields[..|fields| - 1], style);
    }
  }

  /** Where renamed keys stay distinct, field by field: the key is renamed, an opaque
      subtree is left exactly as it was, any other value is converted. */
  lemma {:induction false} FieldAt(fields: seq<Field>, style: Style, i: nat)
    requires Apart(fields, style) && i < |fields|
    ensures |ConvertFields(fields, style)| == |fields|
    ensures ConvertFields(fields, style)[i] == Field(Rename(style, fields[i].key), ConvertValue(fields[i], style))
    decreases |fields|
  {
    var before := fields[..|fields| - 1];
    SameLength(fields, style);
    NoCollision(fields, style);
    ApartPrefix(fields, style);
    SameLength(before, style);
    if i < |before| { FieldAt(before, style, i); }
  }

  lemma ApartPrefix(fields: seq<Field>, style: Style)
    requires fields != [] && Apart(fields, style)
    ensures Apart(fields[..|fields| - 1], style)
  {
    var before := fields[..|fields| - 1];
    forall i, j | 0 <= i < j < |before| ensures Rename(style, before[i].key) != Rename(style, before[j].key) {
      assert before[i] == fields[i] && before[j] == fields[j];
    }
  }

  /** So an opaque subtree comes out exactly as it went in, under the renamed key. */
  lemma OpaqueUntouched(fields: seq<Field>, style: Style, i: nat)
    requires Apart(fields, style) && i < |fields| && fields[i].key in OPAQUE_KEYS
    ensures var out := Convert(Obj(fields), style).fields;
            i < |out| && out[i].key in OPAQUE_KEYS && out[i].value == fields[i].value
  {
    FieldAt(fields, style, i);
    RenamingKeepsOpacity(style, fields[i].key);
  }

  /** Renaming to snake_case keeps apart any two keys that are not in snake form. */
  lemma SnakeIsInjective(fields: seq<Field>)
    requires Distinct(fields)
    requires forall i :: 0 <= i < |fields| ==> !SnakeWord(fields[i].key) && fields[i].key != PROTO
    ensures Apart(fields, Snake)
  {
    forall f | f in fields ensures KeepsKey(f, Snake) {
      RenameAvoidsProto(Snake, f.key);
    }
    forall i, j | 0 <= i < j < |fields| ensures Rename(Snake, fields[i].key) != Rename(Snake, fields[j].key) {
      KeyRoundTrip(fields[i].key);
      KeyRoundTrip(fields[j].key);
    }
  }

  lemma {:induction false} FieldsThereAndBack(fields: seq<Field>)
    requires Distinct(fields)
    requires forall i :: 0 <= i < |fields| ==> !SnakeWord(fields[i].key) && fields[i].key != PROTO
    requires forall i :: 0 <= i < |fields| ==>
               fields[i].key in OPAQUE_KEYS || Convert(Convert(fields[i].value, Snake), Camel) == fields[i].value
    ensures ConvertFields(ConvertFields(fields, Snake), Camel) == fields
  {
    if fields != [] {
      var before, last := fields[..|fields| - 1], fields[|fields| - 1];
      FieldsThereAndBack(before);
      SnakeIsInjective(fields);
      NoCollision(fields, Snake);
      var out := Field(Rename(Snake, last.key), ConvertValue(last, Snake));
      var all := ConvertFields(before, Snake) + [out];
      assert all[..|all| - 1] == ConvertFields(before, Snake);
      KeyRoundTrip(last.key);
      RenamingKeepsOpacity(Snake, last.key);
      PutFields(before, last.key, last.value);
      assert fields == before + [last];
    }
  }

  lemma StaysPlain(fields: seq<Field>)
    requires forall i :: 0 <= i < |fields| ==> fields[i].key != PROTO
    ensures !ReplacesPrototype(fields) && !ReplacesPrototype(ConvertFields(fields, Snake))
  {
    forall f | f in ConvertFields(fields, Snake) ensures f.key != PROTO {
      var i := ConvertedField(fields, Snake, f);
    }
  }

  lemma {:induction false} ThereAndBack(v: Json)
    requires WellFormed(v) && NoLostKeys(v)
    ensures Convert(Convert(v, Snake), Camel) == v
    decreases v
  {
    match v
    case Arr(items) =>
      ItemsPointwise(items, Snake);
      ItemsPointwise(ConvertItems(items, Snake), Camel);
      forall i | 0 <= i < |items| ensures Convert(Convert(items[i], Snake), Camel) == items[i] {
        ThereAndBack(items[i]);
      }
      assert ConvertItems(ConvertItems(items, Snake), Camel) == items;
    case Obj(fields) =>
      forall i | 0 <= i < |fields|
        ensures fields[i].key in OPAQUE_KEYS || Convert(Convert(fields[i].value, Snake), Camel) == fields[i].value
      {
        if fields[i].key !in OPAQUE_KEYS { ThereAndBack(fields[i].value); }
      }
      FieldsThereAndBack(fields);
      StaysPlain(fields);
    case _ =>
  }

  lemma {:induction false} CamelSettledLosesNothing(v: Json)
    requires Settled(v, Camel)
    ensures NoLostKeys(v)
    decreases v
  {
    match v
    case Arr(items) =>
      forall i | 0 <= i < |items| ensures NoLostKeys(items[i]) { CamelSettledLosesNothing(items[i]); }
    case Obj(fields) =>
      forall i | 0 <= i < |fields|
        ensures !SnakeWord(fields[i].key) && fields[i].key != PROTO
        ensures fields[i].key in OPAQUE_KEYS || NoLostKeys(fields[i].value)
      {
        assert SettledField(fields[i], Camel);
        ToCamelTwice(fields[i].key);
        if fields[i].key !in OPAQUE_KEYS { CamelSettledLosesNothing(fields[i].value); }
      }
    case _ =>
  }

  /** A value survives the trip out and back exactly when, outside opaque subtrees, it has no
      snake_case key and none that names the prototype. */
  lemma RoundTrip(v: Json)
    requires WellFormed(v)
    ensures Convert(Convert(v, Snake), Camel) == v <==> NoLostKeys(v)
  {
    if NoLostKeys(v) { ThereAndBack(v); }
    if Convert(Convert(v, Snake), Camel) == v {
      ConvertSettles(Convert(v, Snake), Camel);
      CamelSettledLosesNothing(v);
    }
  }
}
