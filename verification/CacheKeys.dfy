/**
  What the caches hash: NUL-separated fields for completions and embeddings, length-prefixed
  fields for embeddings with their space.  Each encoding is undone by a decoder, so equal
  pre-images come from equal requests; a collision-free hash is then an identity on requests.
*/
module CacheKeys {
  import opened Prelude

  newtype byte = x: int | 0 <= x < 256

  type Bytes = seq<byte>

  ghost predicate NoNul(b: Bytes) { forall i :: 0 <= i < |b| ==> b[i] != 0 }

  // ------------------------------------------------------------------ NUL-separated fields

  /** `completion_cache_key` up to the hash; `part` renders the options, `schema` the JSON schema if there is one. */
  function CompletionPreimage(kind: Bytes, part: Bytes, schema: Option<Bytes>, prompt: Bytes): Bytes
  {
    kind + [0] + part + [0] + (if schema.Some? then schema.value else []) + [0] + prompt
  }

  /** The bytes before the first NUL, and those after it. */
  function SplitAtNul(b: Bytes): Option<(Bytes, Bytes)>
  {
    if b == [] then None
    else if b[0] == 0 then Some(([], b[1..]))
    else
      var rest := SplitAtNul(b[1..]);
      if rest.None? then None else Some(([b[0]] + rest.value.0, rest.value.1))
  }

  lemma {:induction false} SplitUndoesJoin(field: Bytes, rest: Bytes)
    requires NoNul(field)
    ensures SplitAtNul(field + [0] + rest) == Some((field, rest))
    decreases |field|
  {
    var b := field + [0] + rest;
    if field == [] {
      assert b[1..] == rest;
    } else {
      assert b[0] == field[0] && b[1..] == field[1..] + [0] + rest;
      SplitUndoesJoin(field[1..], rest);
      assert field == [field[0]] + field[1..];
    }
  }

  function DecodeCompletion(b: Bytes): Option<(Bytes, Bytes, Bytes, Bytes)>
  {
    var kind := SplitAtNul(b);
    if kind.None? then None
    else
      var part := SplitAtNul(kind.value.1);
      if part.None? then None
      else
        var schema := SplitAtNul(part.value.1);
        if schema.None? then None
        else Some((kind.value.0, part.value.0, schema.value.0, schema.value.1))
  }

  /** The prompt may hold anything; the three fields before it must be free of NUL. */
  lemma CompletionRoundTrip(kind: Bytes, part: Bytes, schema: Option<Bytes>, prompt: Bytes)
    requires NoNul(kind) && NoNul(part) && (schema.Some? ==> NoNul(schema.value))
    ensures DecodeCompletion(CompletionPreimage(kind, part, schema, prompt))
            == Some((kind, part, if schema.Some? then schema.value else [], prompt))
  {
    var s := if schema.Some? then schema.value else [];
    SplitUndoesJoin(s, prompt);
    SplitUndoesJoin(part, s + [0] + prompt);
    SplitUndoesJoin(kind, part + [0] + (s + [0] + prompt));
    assert CompletionPreimage(kind, part, schema, prompt) == kind + [0] + (part + [0] + (s + [0] + prompt));
  }

  /** The condition is needed: a NUL in the options could pass for the one that ends them. */
  lemma NulWouldCollide()
    ensures CompletionPreimage([1], [2], None, [0, 3]) == CompletionPreimage([1], [2, 0], None, [3])
  {
  }

  /** `"embedding\0"`. */
  const EMBEDDING: Bytes := [101, 109, 98, 101, 100, 100, 105, 110, 103, 0]

  function EmbeddingPreimage(text: Bytes): Bytes { EMBEDDING + text }

  lemma EmbeddingPreimageInjective(a: Bytes, b: Bytes)
    requires EmbeddingPreimage(a) == EmbeddingPreimage(b)
    ensures a == b
  {
    assert EmbeddingPreimage(a)[|EMBEDDING|..] == a && EmbeddingPreimage(b)[|EMBEDDING|..] == b;
  }

  // ------------------------------------------------------------------ options as text

  function HexDigit(n: nat): byte
    requires n < 16
  {
    if n < 10 then (48 + n) as byte else (87 + n) as byte
  }

  /** How a debug rendering writes one byte of a string; above ASCII every character is taken to be printable. */
  function Escape(b: byte): Bytes
  {
    if b == 0 then [92, 48]
    else if b == 9 then [92, 116]
    else if b == 10 then [92, 110]
    else if b == 13 then [92, 114]
    else if b == 34 || b == 92 then [92, b]
    else if b < 16 then [92, 117, 123, HexDigit(b as nat), 125]
    else if b < 32 || b == 127 then [92, 117, 123, HexDigit(b as nat / 16), HexDigit(b as nat % 16), 125]
    else [b]
  }

  function EscapeAll(text: Bytes): Bytes { if text == [] then [] else Escape(text[0]) + EscapeAll(text[1..]) }

  /** `None` and `Some("`. */
  const NONE: Bytes := [78, 111, 110, 101]
  const SOME: Bytes := [83, 111, 109, 101, 40, 34]

  /** `None`, or `Some("...")` with the text escaped. */
  function DebugText(text: Option<Bytes>): Bytes
  {
    if text.None? then NONE else SOME + Then(EscapeAll(text.value), 34, [41])
  }

  /** `rest` after `field` and a separator. */
  function Then(field: Bytes, sep: byte, rest: Bytes): Bytes { field + ([sep] + rest) }

  lemma ThenAppend(head: Bytes, field: Bytes, sep: byte, rest: Bytes)
    ensures Then(head + field, sep, rest) == head + Then(field, sep, rest)
  {
  }

  /** `cache_key_part`: the model's name as text, and the other four as their own renderings. */
  function OptionsPart(model: Option<Bytes>, max: Bytes, temp: Bytes, task: Bytes, prompt: Bytes): Bytes
  {
    MODEL
    + Then(DebugText(model), BAR,
           Then(MAX + max, BAR,
                Then(TEMP + temp, BAR,
                     Then(TASK + task, BAR, PROMPT + prompt))))
  }

  /** `"model="`, `"max="`, `"temp="`, `"task="`, `"prompt="` and the vertical bar between them. */
  const MODEL: Bytes := [109, 111, 100, 101, 108, 61]
  const MAX: Bytes := [109, 97, 120, 61]
  const TEMP: Bytes := [116, 101, 109, 112, 61]
  const TASK: Bytes := [116, 97, 115, 107, 61]
  const PROMPT: Bytes := [112, 114, 111, 109, 112, 116, 61]
  const BAR: byte := 124

  lemma EscapeIsPrefixFree(a: byte, b: byte, x: Bytes, y: Bytes)
    requires Escape(a) + x == Escape(b) + y
    ensures a == b && x == y
  {
    var l, r := Escape(a) + x, Escape(b) + y;
    assert l[0] == r[0];
    if l[0] == 92 {
      assert l[1] == r[1];
      if l[1] == 117 { assert l[3] == r[3] && l[4] == r[4]; }
    }
    assert a == b;
    assert l[|Escape(a)|..] == x && r[|Escape(b)|..] == y;
  }

  lemma FirstOfThen(field: Bytes, sep: byte, rest: Bytes)
    ensures Then(field, sep, rest)[0] == if field == [] then sep else field[0]
    ensures field == [] ==> Then(field, sep, rest)[1..] == rest
    ensures field != [] ==> Then(field, sep, rest)[1..] == Then(field[1..], sep, rest)
  {
  }

  /** A quoted text ends at the first quote that is not escaped, whatever the text holds and whatever follows. */
  lemma {:induction false} QuotedIsPrefixFree(a: Bytes, b: Bytes, x: Bytes, y: Bytes)
    requires Then(EscapeAll(a), 34, x) == Then(EscapeAll(b), 34, y)
    ensures a == b && x == y
    decreases |a|
  {
    FirstOfThen(EscapeAll(a), 34, x);
    FirstOfThen(EscapeAll(b), 34, y);
    if a == [] || b == [] {
      QuoteIsEscaped(a);
      QuoteIsEscaped(b);
    } else {
      ThenAppend(Escape(a[0]), EscapeAll(a[1..]), 34, x);
      ThenAppend(Escape(b[0]), EscapeAll(b[1..]), 34, y);
      EscapeIsPrefixFree(a[0], b[0], Then(EscapeAll(a[1..]), 34, x), Then(EscapeAll(b[1..]), 34, y));
      QuotedIsPrefixFree(a[1..], b[1..], x, y);
      assert a == [a[0]] + a[1..] && b == [b[0]] + b[1..];
    }
  }

  lemma QuoteIsEscaped(text: Bytes)
    ensures text != [] ==> EscapeAll(text) != [] && EscapeAll(text)[0] != 34
  {
  }

  lemma DebugIsPrefixFree(a: Option<Bytes>, b: Option<Bytes>, x: Bytes, y: Bytes)
    requires Then(DebugText(a), BAR, x) == Then(DebugText(b), BAR, y)
    ensures a == b && x == y
  {
    FirstOfThen(DebugText(a), BAR, x);
    FirstOfThen(DebugText(b), BAR, y);
    if a.None? {
      TailOf(DebugText(a), [BAR] + x, [BAR] + y);
      TailOf([BAR], x, y);
    } else {
      SomeThen(a.value, x);
      SomeThen(b.value, y);
      TailOf(SOME, Then(EscapeAll(a.value), 34, Then([41], BAR, x)), Then(EscapeAll(b.value), 34, Then([41], BAR, y)));
      QuotedIsPrefixFree(a.value, b.value, Then([41], BAR, x), Then([41], BAR, y));
      TailOf([41], [BAR] + x, [BAR] + y);
      TailOf([BAR], x, y);
    }
  }

  lemma SomeThen(text: Bytes, x: Bytes)
    ensures Then(DebugText(Some(text)), BAR, x) == SOME + Then(EscapeAll(text), 34, Then([41], BAR, x))
  {
    ThenAppend(SOME, Then(EscapeAll(text), 34, [41]), BAR, x);
    ThenThen(EscapeAll(text), 34, [41], BAR, x);
  }

  lemma ThenThen(field: Bytes, sep: byte, middle: Bytes, bar: byte, rest: Bytes)
    ensures Then(Then(field, sep, middle), bar, rest) == Then(field, sep, Then(middle, bar, rest))
  {
  }

  lemma {:induction false} BarEnds(f: Bytes, g: Bytes, x: Bytes, y: Bytes)
    requires BAR !in f && BAR !in g && Then(f, BAR, x) == Then(g, BAR, y)
    ensures f == g && x == y
    decreases |f|
  {
    FirstOfThen(f, BAR, x);
    FirstOfThen(g, BAR, y);
    if f != [] && g != [] {
      BarEnds(f[1..], g[1..], x, y);
      assert f == [f[0]] + f[1..] && g == [g[0]] + g[1..];
    }
  }

  lemma FieldEnds(tag: Bytes, f: Bytes, g: Bytes, x: Bytes, y: Bytes)
    requires BAR !in tag && BAR !in f && BAR !in g && Then(tag + f, BAR, x) == Then(tag + g, BAR, y)
    ensures f == g && x == y
  {
    BarEnds(tag + f, tag + g, x, y);
    TailOf(tag, f, g);
  }

  /** A model name may hold anything, quotes and bars included: equal parts come from equal options. */
  lemma OptionsPartInjective(m: Option<Bytes>, a: Bytes, b: Bytes, c: Bytes, d: Bytes, n: Option<Bytes>, e: Bytes,
    f: Bytes, g: Bytes, h: Bytes)
    requires BAR !in a && BAR !in b && BAR !in c && BAR !in e && BAR !in f && BAR !in g
    requires OptionsPart(m, a, b, c, d) == OptionsPart(n, e, f, g, h)
    ensures m == n && a == e && b == f && c == g && d == h
  {
    var c1, g1 := Then(TASK + c, BAR, PROMPT + d), Then(TASK + g, BAR, PROMPT + h);
    var b1, f1 := Then(TEMP + b, BAR, c1), Then(TEMP + f, BAR, g1);
    var a1, e1 := Then(MAX + a, BAR, b1), Then(MAX + e, BAR, f1);
    TailOf(MODEL, Then(DebugText(m), BAR, a1), Then(DebugText(n), BAR, e1));
    DebugIsPrefixFree(m, n, a1, e1);
    FieldEnds(MAX, a, e, b1, f1);
    FieldEnds(TEMP, b, f, c1, g1);
    FieldEnds(TASK, c, g, PROMPT + d, PROMPT + h);
    TailOf(PROMPT, d, h);
  }

  lemma TailOf(tag: Bytes, x: Bytes, y: Bytes)
    requires tag + x == tag + y
    ensures x == y
  {
    assert (tag + x)[|tag|..] == x && (tag + y)[|tag|..] == y;
  }

  lemma {:induction false} EscapedHasNoNul(text: Bytes)
    ensures NoNul(EscapeAll(text))
    decreases |text|
  {
    if text != [] { EscapedHasNoNul(text[1..]); }
  }

  lemma JoinHasNoNul(tag: Bytes, field: Bytes, rest: Bytes)
    requires NoNul(tag) && NoNul(field) && NoNul(rest)
    ensures NoNul(tag + field) && NoNul(Then(tag + field, BAR, rest))
  {
  }

  lemma TextHasNoNul(model: Option<Bytes>)
    ensures NoNul(DebugText(model))
  {
    if model.Some? { EscapedHasNoNul(model.value); }
  }

  lemma PartHasNoNul(model: Option<Bytes>, max: Bytes, temp: Bytes, task: Bytes, prompt: Bytes)
    requires NoNul(max) && NoNul(temp) && NoNul(task) && NoNul(prompt)
    ensures NoNul(OptionsPart(model, max, temp, task, prompt))
  {
    var r4 := PROMPT + prompt;
    var r3 := Then(TASK + task, BAR, r4);
    var r2 := Then(TEMP + temp, BAR, r3);
    var r1 := Then(MAX + max, BAR, r2);
    JoinHasNoNul(PROMPT, prompt, []);
    JoinHasNoNul(TASK, task, r4);
    JoinHasNoNul(TEMP, temp, r3);
    JoinHasNoNul(MAX, max, r2);
    TextHasNoNul(model);
    JoinHasNoNul([], DebugText(model), r1);
    assert [] + DebugText(model) == DebugText(model);
    JoinHasNoNul(MODEL, Then(DebugText(model), BAR, r1), []);
  }

  // ------------------------------------------------------------------ length-prefixed fields

  function Power256(k: nat): nat { if k == 0 then 1 else 256 * Power256(k - 1) }

  /** `n` in `k` bytes, least significant first. */
  function LittleEndian(n: nat, k: nat): (r: Bytes)
    ensures |r| == k
  {
    if k == 0 then [] else [(n % 256) as byte] + LittleEndian(n / 256, k - 1)
  }

  function FromLittleEndian(b: Bytes): nat
  {
    if b == [] then 0 else b[0] as nat + 256 * FromLittleEndian(b[1..])
  }

  lemma {:induction false} LittleEndianRoundTrip(n: nat, k: nat)
    requires n < Power256(k)
    ensures FromLittleEndian(LittleEndian(n, k)) == n
    decreases k
  {
    if k > 0 { LittleEndianRoundTrip(n / 256, k - 1); }
  }

  datatype Normalization = Unnormalized | L2

  datatype Space = Space(model: Bytes, checkpoint: Bytes, preprocess: Bytes, dim: nat, normalization: Normalization)

  /** `"none"` and `"l2"`. */
  function NormalizationName(n: Normalization): Bytes { if n.L2? then [108, 50] else [110, 111, 110, 101] }

  function Fields(space: Space, content: Bytes): seq<Bytes>
  {
    [space.model, space.checkpoint, space.preprocess, LittleEndian(space.dim, 8),
      NormalizationName(space.normalization), content]
  }

  /** The loop of `embedding_content_hash`: each field after its length in eight bytes. */
  function Prefixed(fields: seq<Bytes>): Bytes
  {
    if fields == [] then []
    else Prefixed(fields[..|fields| - 1]) + LittleEndian(|fields[|fields| - 1]|, 8) + fields[|fields| - 1]
  }

  function ContentPreimage(space: Space, content: Bytes): Bytes { Prefixed(Fields(space, content)) }

  method FeedHasher(space: Space, content: Bytes) returns (fed: Bytes)
    ensures fed == ContentPreimage(space, content)
  {
    fed := [];
    var fields := Fields(space, content);
    for i := 0 to |fields|
      invariant fed == Prefixed(fields[..i])
    {
      assert fields[..i + 1][..i] == fields[..i];
      fed := fed + LittleEndian(|fields[i]|, 8);
      fed := fed + fields[i];
    }
    assert fields[..|fields|] == fields;
  }

  function DecodeFields(b: Bytes): Option<seq<Bytes>>
    decreases |b|
  {
    if b == [] then Some([])
    else if |b| < 8 then None
    else
      var n := FromLittleEndian(b[..8]);
      if |b| < 8 + n then None
      else
        var rest := DecodeFields(b[8 + n..]);
        if rest.None? then None else Some([b[8..8 + n]] + rest.value)
  }

  lemma DecodeFirst(field: Bytes, rest: Bytes)
    requires |field| < Power256(8)
    ensures DecodeFields(LittleEndian(|field|, 8) + field + rest)
            == if DecodeFields(rest).None? then None else Some([field] + DecodeFields(rest).value)
  {
    var b := LittleEndian(|field|, 8) + field + rest;
    LittleEndianRoundTrip(|field|, 8);
    assert b[..8] == LittleEndian(|field|, 8) && b[8..8 + |field|] == field && b[8 + |field|..] == rest;
  }

  lemma {:induction false} PrefixedFirst(fields: seq<Bytes>)
    requires fields != []
    ensures Prefixed(fields) == LittleEndian(|fields[0]|, 8) + fields[0] + Prefixed(fields[1..])
    decreases |fields|
  {
    var n := |fields| - 1;
    if n > 0 {
      PrefixedFirst(fields[..n]);
      assert fields[..n][1..] == fields[1..][..n - 1];
    }
  }

  /** Any list of fields can be read back. */
  lemma {:induction false} FieldsRoundTrip(fields: seq<Bytes>)
    requires forall f :: f in fields ==> |f| < Power256(8)
    ensures DecodeFields(Prefixed(fields)) == Some(fields)
    decreases |fields|
  {
    if fields != [] {
      PrefixedFirst(fields);
      FieldsRoundTrip(fields[1..]);
      DecodeFirst(fields[0], Prefixed(fields[1..]));
      assert fields == [fields[0]] + fields[1..];
    }
  }

  /** Every field fits its prefix and `dim` fits its eight bytes, as on a 64-bit machine they must. */
  ghost predicate Representable(space: Space, content: Bytes)
  {
    && |space.model| < Power256(8) && |space.checkpoint| < Power256(8) && |space.preprocess| < Power256(8)
    && space.dim < Power256(8) && |content| < Power256(8)
  }

  /** Equal pre-images come from equal spaces and equal contents. */
  lemma ContentPreimageInjective(a: Space, x: Bytes, b: Space, y: Bytes)
    requires Representable(a, x) && Representable(b, y)
    requires ContentPreimage(a, x) == ContentPreimage(b, y)
    ensures a == b && x == y
  {
    EightIsWide();
    FieldsRoundTrip(Fields(a, x));
    FieldsRoundTrip(Fields(b, y));
    var f, g := Fields(a, x), Fields(b, y);
    assert f[0] == g[0] && f[1] == g[1] && f[2] == g[2] && f[3] == g[3] && f[4] == g[4] && f[5] == g[5];
    LittleEndianRoundTrip(a.dim, 8);
    LittleEndianRoundTrip(b.dim, 8);
  }

  lemma EightIsWide()
    ensures Power256(8) > 8
  {
    assert Power256(1) == 256;
    assert Power256(2) == 65536;
    assert Power256(4) == 256 * (256 * Power256(2));
    assert Power256(8) == 256 * (256 * (256 * (256 * Power256(4))));
  }
}
