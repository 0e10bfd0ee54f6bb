/** The recursive masking of audit metadata. */
module AuditMasking {

  /** Metadata as the logger sees it; `Scalar` is any value that is neither text nor a container. */
  datatype Value =
    | Text(text: string)
    | Scalar(id: int)
    | List(items: seq<Value>)
    | Tuple(items: seq<Value>)
    | Mapping(entries: seq<Entry>)

  datatype Entry = Entry(key: string, value: Value)

  /** What the code takes from configuration and from Python's text functions. */
  datatype Rules = Rules(
    forbidden: string -> bool,
    render: Value -> string,
    space: char -> bool,
    digit: char -> bool,
    letter: char -> bool)

  const MASK_TOKEN := "****"
  const MASK_PREFIX: nat := 4
  const MASK_SUFFIX: nat := 4

  /** `str` gives text back unchanged. */
  ghost predicate RendersText(r: Rules) {
    forall s: string :: r.render(Text(s)) == s
  }

  function StripLeft(r: Rules, s: string): (t: string)
    ensures |t| <= |s|
  {
    if s != "" && r.space(s[0]) then StripLeft(r, s[1..]) else s
  }

  function StripRight(r: Rules, s: string): (t: string)
    ensures |t| <= |s|
  {
    if s != "" && r.space(s[|s| - 1]) then StripRight(r, s[..|s| - 1]) else s
  }

  predicate LooksLikeSecret(r: Rules, s: string) {
    var condensed := StripRight(r, StripLeft(r, s));
    && ' ' !in condensed && |condensed| >= 16
    && (exists i :: 0 <= i < |condensed| && r.digit(condensed[i]))
    && (exists i :: 0 <= i < |condensed| && r.letter(condensed[i]))
  }

  function MaskedText(text: string): string {
    if |text| <= MASK_PREFIX + MASK_SUFFIX then MASK_TOKEN
    else text[..MASK_PREFIX] + MASK_TOKEN + text[|text| - MASK_SUFFIX..]
  }

  function MaskedValue(r: Rules, v: Value): Value {
    Text(MaskedText(r.render(v)))
  }

  function Sanitize(r: Rules, v: Value): Value
    decreases v, 0
  {
    match v
    case Mapping(entries) => Mapping(SanitizeEntries(r, entries))
    case List(items) => List(SanitizeItems(r, items))
    case Tuple(items) => List(SanitizeItems(r, items))
    case _ => v
  }

  function SanitizeItems(r: Rules, items: seq<Value>): (out: seq<Value>)
    ensures |out| == |items|
    decreases items
  {
    if items == [] then [] else [Sanitize(r, items[0])] + SanitizeItems(r, items[1..])
  }

  function SanitizeEntries(r: Rules, entries: seq<Entry>): (out: seq<Entry>)
    ensures |out| == |entries|
    ensures forall i :: 0 <= i < |entries| ==> out[i].key == entries[i].key
    decreases entries
  {
    if entries == [] then []
    else
      [Entry(entries[0].key, MaskSensitive(r, entries[0].key, entries[0].value))] + SanitizeEntries(r, entries[1..])
  }

  function MaskSensitive(r: Rules, key: string, v: Value): Value
    decreases v, 1
  {
    if r.forbidden(key) then MaskedValue(r, v)
    else match v
      case Text(s) => if LooksLikeSecret(r, s) then MaskedValue(r, v) else v
      case Scalar(_) => v
      case _ => Sanitize(r, v)
  }

  // ----- what is clean

  /**
   * At any depth, what a mapping holds under a forbidden key is masked and text it holds directly does not look like a
   * secret, and no tuple survives. Text inside a list is never looked at (see `SecretSurvivesIff`).
   */
  ghost predicate Clean(r: Rules, v: Value)
    decreases v
  {
    match v
    case Mapping(entries) => forall e :: e in entries ==> CleanEntry(r, e)
    case List(items) => forall x :: x in items ==> Clean(r, x)
    case Tuple(_) => false
    case _ => true
  }

  ghost predicate CleanEntry(r: Rules, e: Entry)
    decreases e
  {
    if r.forbidden(e.key) then e.value.Text? && |e.value.text| <= 12 && Masks(e.value.text)
    else if e.value.Text? then !LooksLikeSecret(r, e.value.text)
    else Clean(r, e.value)
  }

  /** A text of the shape masking produces. */
  predicate Masks(s: string) {
    s == MASK_TOKEN || (|s| == 12 && s[4..8] == MASK_TOKEN)
  }

  lemma MaskedTextShape(text: string)
    ensures Masks(MaskedText(text)) && |MaskedText(text)| <= 12
    ensures MaskedText(MaskedText(text)) == MaskedText(text)
    ensures forall r: Rules :: !LooksLikeSecret(r, MaskedText(text))
    ensures |text| <= 8 ==> MaskedText(text) == "****"
    ensures |text| > 8 ==> MaskedText(text)[..4] == text[..4] && MaskedText(text)[8..] == text[|text| - 4..]
    ensures |text| > 8 ==> MaskedText(text)[4..8] == "****"
  {
  }

  lemma {:induction false} SanitizeCleans(r: Rules, v: Value)
    ensures Clean(r, Sanitize(r, v))
    decreases v, 0
  {
    match v
    case Mapping(entries) => EntriesClean(r, entries);
    case List(items) => ItemsClean(r, items);
    case Tuple(items) => ItemsClean(r, items);
    case _ =>
  }

  lemma {:induction false} ItemsClean(r: Rules, items: seq<Value>)
    ensures forall x :: x in SanitizeItems(r, items) ==> Clean(r, x)
    decreases items
  {
    if items != [] {
      SanitizeCleans(r, items[0]);
      ItemsClean(r, items[1..]);
    }
  }

  lemma {:induction false} EntriesClean(r: Rules, entries: seq<Entry>)
    ensures forall e :: e in SanitizeEntries(r, entries) ==> CleanEntry(r, e)
    decreases entries
  {
    if entries != [] {
      var e := entries[0];
      MaskedTextShape(r.render(e.value));
      if !r.forbidden(e.key) { SanitizeCleans(r, e.value); }
      EntriesClean(r, entries[1..]);
    }
  }

  /** Clean metadata passes through unchanged, so masking what was masked changes nothing. */
  lemma {:induction false} CleanUnchanged(r: Rules, v: Value)
    requires RendersText(r) && Clean(r, v)
    ensures Sanitize(r, v) == v
    decreases v, 0
  {
    match v
    case Mapping(entries) => CleanEntriesUnchanged(r, entries);
    case List(items) => CleanItemsUnchanged(r, items);
    case _ =>
  }

  lemma {:induction false} CleanItemsUnchanged(r: Rules, items: seq<Value>)
    requires RendersText(r) && forall x :: x in items ==> Clean(r, x)
    ensures SanitizeItems(r, items) == items
    decreases items
  {
    if items != [] {
      CleanUnchanged(r, items[0]);
      CleanItemsUnchanged(r, items[1..]);
    }
  }

  lemma {:induction false} CleanEntriesUnchanged(r: Rules, entries: seq<Entry>)
    requires RendersText(r) && forall e :: e in entries ==> CleanEntry(r, e)
    ensures SanitizeEntries(r, entries) == entries
    decreases entries
  {
    if entries != [] {
      var e := entries[0];
      assert CleanEntry(r, e);
      if r.forbidden(e.key) {
        MaskTwice(e.value.text);
        assert r.render(Text(e.value.text)) == e.value.text;
      } else if !e.value.Text? {
        CleanUnchanged(r, e.value);
      }
      CleanEntriesUnchanged(r, entries[1..]);
    }
  }

  lemma MaskTwice(s: string)
    requires Masks(s)
    ensures MaskedText(s) == s
  {
    if s != MASK_TOKEN {
      assert s == s[..4] + s[4..8] + s[8..];
    }
  }

  /** Main result: what sanitizing leaves alone is exactly what is clean, at every depth. */
  lemma UnchangedIffClean(r: Rules, v: Value)
    requires RendersText(r)
    ensures Sanitize(r, v) == v <==> Clean(r, v)
  {
    SanitizeCleans(r, v);
    if Clean(r, v) { CleanUnchanged(r, v); }
  }

  lemma SanitizeIdempotent(r: Rules, v: Value)
    requires RendersText(r)
    ensures Sanitize(r, Sanitize(r, v)) == Sanitize(r, v)
  {
    SanitizeCleans(r, v);
    UnchangedIffClean(r, Sanitize(r, v));
  }

  // ----- what survives

  /** The text `s` occurs as a value somewhere in `v`. */
  predicate Holds(v: Value, s: string)
    decreases v, 0
  {
    match v
    case Text(t) => t == s
    case Scalar(_) => false
    case List(items) => ItemsHold(items, s)
    case Tuple(items) => ItemsHold(items, s)
    case Mapping(entries) => EntriesHold(entries, s)
  }

  predicate ItemsHold(items: seq<Value>, s: string)
    decreases items
  {
    items != [] && (Holds(items[0], s) || ItemsHold(items[1..], s))
  }

  predicate EntriesHold(entries: seq<Entry>, s: string)
    decreases entries
  {
    entries != [] && (Holds(entries[0].value, s) || EntriesHold(entries[1..], s))
  }

  /** The text `s` occurs in `v` below no forbidden key and held by no mapping: alone, or inside a list or tuple. */
  predicate Loose(r: Rules, v: Value, s: string)
    decreases v, 0
  {
    match v
    case Text(t) => t == s
    case Scalar(_) => false
    case List(items) => LooseItems(r, items, s)
    case Tuple(items) => LooseItems(r, items, s)
    case Mapping(entries) => LooseEntries(r, entries, s)
  }

  predicate LooseItems(r: Rules, items: seq<Value>, s: string)
    decreases items
  {
    items != [] && (Loose(r, items[0], s) || LooseItems(r, items[1..], s))
  }

  predicate LooseEntries(r: Rules, entries: seq<Entry>, s: string)
    decreases entries
  {
    && entries != []
    && (LooseEntries(r, entries[1..], s)
        || (!r.forbidden(entries[0].key) && !entries[0].value.Text? && Loose(r, entries[0].value, s)))
  }

  /** Sanitizing leaves a text that looks like a secret exactly where it stands alone or inside a list or tuple. */
  lemma {:induction false} SecretSurvivesIff(r: Rules, v: Value, s: string)
    requires LooksLikeSecret(r, s)
    ensures Holds(Sanitize(r, v), s) <==> Loose(r, v, s)
    decreases v, 0
  {
    match v
    case Mapping(entries) => EntriesSurviveIff(r, entries, s);
    case List(items) => ItemsSurviveIff(r, items, s);
    case Tuple(items) => ItemsSurviveIff(r, items, s);
    case _ =>
  }

  lemma {:induction false} ItemsSurviveIff(r: Rules, items: seq<Value>, s: string)
    requires LooksLikeSecret(r, s)
    ensures ItemsHold(SanitizeItems(r, items), s) <==> LooseItems(r, items, s)
    decreases items
  {
    if items != [] {
      SecretSurvivesIff(r, items[0], s);
      ItemsSurviveIff(r, items[1..], s);
      assert SanitizeItems(r, items)[1..] == SanitizeItems(r, items[1..]);
    }
  }

  lemma {:induction false} EntriesSurviveIff(r: Rules, entries: seq<Entry>, s: string)
    requires LooksLikeSecret(r, s)
    ensures EntriesHold(SanitizeEntries(r, entries), s) <==> LooseEntries(r, entries, s)
    decreases entries
  {
    if entries != [] {
      var e := entries[0];
      MaskedTextShape(r.render(e.value));
      if !r.forbidden(e.key) && !e.value.Text? { SecretSurvivesIff(r, e.value, s); }
      EntriesSurviveIff(r, entries[1..], s);
      assert SanitizeEntries(r, entries)[1..] == SanitizeEntries(r, entries[1..]);
    }
  }

  // ----- what is read as a secret, and what happens to each entry

  predicate Bare(r: Rules, s: string) {
    s != "" ==> !r.space(s[0]) && !r.space(s[|s| - 1])
  }

  /** Text without outer white space is read as a secret when it is long, unbroken and mixes digits and letters. */
  lemma SecretMeans(r: Rules, s: string)
    requires Bare(r, s)
    ensures LooksLikeSecret(r, s) <==>
      && |s| >= 16 && ' ' !in s
      && (exists i :: 0 <= i < |s| && r.digit(s[i])) && (exists i :: 0 <= i < |s| && r.letter(s[i]))
  {
  }

  /** White space around a text makes no difference. */
  lemma {:induction false} OuterSpaceIgnored(r: Rules, s: string, ch: char)
    requires r.space(ch) && Bare(r, s)
    ensures LooksLikeSecret(r, [ch] + s) == LooksLikeSecret(r, s)
    ensures LooksLikeSecret(r, s + [ch]) == LooksLikeSecret(r, s)
  {
    assert ([ch] + s)[1..] == s && (s + [ch])[..|s|] == s;
    if s == "" {
      assert [ch] + s == [ch] && s + [ch] == [ch] && [ch][1..] == "";
    } else {
      assert StripLeft(r, s + [ch]) == s + [ch];
    }
  }

  /** One entry: what a forbidden key holds is masked, a secret is masked, other text and scalars stay as they are. */
  lemma EntryBecomes(r: Rules, key: string, v: Value)
    ensures var out := Sanitize(r, Mapping([Entry(key, v)]));
      && out.Mapping? && |out.entries| == 1 && out.entries[0].key == key
      && (r.forbidden(key) ==> out.entries[0].value == Text(MaskedText(r.render(v))))
      && (!r.forbidden(key) && v.Text? && LooksLikeSecret(r, v.text) ==>
           out.entries[0].value == Text(MaskedText(r.render(v))))
      && (!r.forbidden(key) && v.Text? && !LooksLikeSecret(r, v.text) ==> out.entries[0].value == v)
      && (!r.forbidden(key) && v.Scalar? ==> out.entries[0].value == v)
      && (!r.forbidden(key) && !v.Text? && !v.Scalar? ==> out.entries[0].value == Sanitize(r, v))
  {
    var es := [Entry(key, v)];
    assert es[1..] == [] && SanitizeEntries(r, []) == [];
    assert SanitizeEntries(r, es) == [Entry(key, MaskSensitive(r, key, v))];
  }

  /** A mapping is sanitized entry by entry. */
  lemma {:induction false} EntryByEntry(r: Rules, es: seq<Entry>, more: seq<Entry>)
    ensures SanitizeEntries(r, es + more) == SanitizeEntries(r, es) + SanitizeEntries(r, more)
  {
    if es == [] {
      assert es + more == more;
    } else {
      assert (es + more)[1..] == es[1..] + more;
      EntryByEntry(r, es[1..], more);
    }
  }

  /** A list is sanitized item by item, and a tuple becomes a list. */
  lemma {:induction false} ItemByItem(r: Rules, xs: seq<Value>, x: Value)
    ensures SanitizeItems(r, xs + [x]) == SanitizeItems(r, xs) + [Sanitize(r, x)]
    ensures Sanitize(r, Tuple(xs)) == Sanitize(r, List(xs)) == List(SanitizeItems(r, xs))
    ensures SanitizeItems(r, []) == []
  {
    if xs == [] {
      assert xs + [x] == [x] && [x][1..] == [];
    } else {
      assert (xs + [x])[1..] == xs[1..] + [x];
      ItemByItem(r, xs[1..], x);
    }
  }
}
