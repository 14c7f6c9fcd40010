/** Redaction of nested log data: keys decide what is removed, masked or kept, down to a fixed depth. */
module Redaction {

  /** A mapping key. `text` is its string form; keys of different kinds may share one. Strings have kind 0. */
  datatype Key = Key(kind: nat, text: string)

  datatype Value =
    | Null
    | Bool(b: bool)
    | Int(n: int)
    | Float(r: real)
    | Str(s: string)
    | Object(tag: nat)
    | Mapping(dict: bool, entries: seq<Entry>)
    | List(items: seq<Value>)
    | Tuple(items: seq<Value>)

  datatype Entry = Entry(key: Key, value: Value)

  datatype Mode = Mask | Hash | Drop

  datatype Allowlist = Everything | Only(keys: set<string>)

  /** A policy with its normalized key sets. Key normalization and the keyed hash may be any functions. */
  datatype Policy = Policy(
    mode: Mode,
    maskText: string,
    hash: Value -> string,
    normalize: string -> string,
    fields: set<string>,
    headers: set<string>,
    headerAllowlist: Allowlist,
    eventAllowlist: Allowlist)

  const MAX_SANITIZE_DEPTH := 32

  predicate IsContainer(v: Value) {
    v.Mapping? || v.List? || v.Tuple?
  }

  // ---------------------------------------------------------------- the recursion

  datatype Verdict = Removed | Redacted | Kept

  /** What happens to an entry, from its key and its place alone. */
  function VerdictOf(p: Policy, text: string, inHeaders: bool, depth: nat): Verdict {
    var k := p.normalize(text);
    if inHeaders && p.headerAllowlist.Only? && k !in p.headerAllowlist.keys then Removed
    else if depth == 0 && p.eventAllowlist.Only? && k !in p.eventAllowlist.keys then Removed
    else if k in p.fields || (inHeaders && k in p.headers) then Redacted
    else Kept
  }

  function OpensHeaders(p: Policy, text: string): bool {
    p.normalize(text) == "headers"
  }

  /** `out[text] = value`: an existing key keeps its place. */
  function Store(out: seq<Entry>, text: string, value: Value): seq<Entry> {
    if out == [] then [Entry(Key(0, text), value)]
    else if out[0].key.text == text then [Entry(Key(0, text), value)] + out[1..]
    else [out[0]] + Store(out[1..], text, value)
  }

  function SanitizeValue(p: Policy, v: Value, inHeaders: bool, depth: nat): Value
    decreases v, 1
  {
    if depth > MAX_SANITIZE_DEPTH && IsContainer(v) then Str(p.maskText)
    else
      match v
      case Mapping(_, entries) => Mapping(true, SanitizeFrom(p, [], entries, inHeaders, depth))
      case List(items) => List(SanitizeItems(p, items, depth + 1))
      case Tuple(items) => Tuple(SanitizeItems(p, items, depth + 1))
      case _ => v
  }

  function SanitizeItems(p: Policy, items: seq<Value>, depth: nat): (out: seq<Value>)
    ensures |out| == |items|
    decreases items, 0
  {
    if items == [] then []
    else [SanitizeValue(p, items[0], false, depth)] + SanitizeItems(p, items[1..], depth)
  }

  /** The rest of a mapping, on top of what was already copied. */
  function SanitizeFrom(p: Policy, out: seq<Entry>, entries: seq<Entry>, inHeaders: bool, depth: nat): seq<Entry>
    decreases entries, 0
  {
    if entries == [] then out
    else SanitizeFrom(p, SanitizeInto(p, out, entries[0], inHeaders, depth), entries[1..], inHeaders, depth)
  }

  function SanitizeInto(p: Policy, out: seq<Entry>, e: Entry, inHeaders: bool, depth: nat): seq<Entry>
    decreases e, 0
  {
    var text := e.key.text;
    match VerdictOf(p, text, inHeaders, depth)
    case Removed => out
    case Redacted => RedactInto(p, out, text, e.value)
    case Kept => Store(out, text, SanitizeValue(p, e.value, OpensHeaders(p, text), depth + 1))
  }

  function RedactInto(p: Policy, out: seq<Entry>, text: string, value: Value): seq<Entry> {
    match p.mode
    case Drop => out
    case Hash => Store(out, text, Str(p.hash(value)))
    case Mask => Store(out, text, Str(p.maskText))
  }

  /** `sanitize_event`. */
  function SanitizeEvent(p: Policy, data: seq<Entry>): seq<Entry> {
    SanitizeFrom(p, [], data, false, 0)
  }

  // ---------------------------------------------------------------- non-interference

  /** The entry leaves nothing in the output, not even its key. */
  predicate Vanishes(p: Policy, text: string, inHeaders: bool, depth: nat) {
    var verdict := VerdictOf(p, text, inHeaders, depth);
    verdict.Removed? || (verdict.Redacted? && p.mode.Drop?)
  }

  /**
   The two values differ at most beneath sensitive keys, in entries an allowlist removes, or inside
   containers deeper than the limit. Hash mode reveals more: there the hashes must match too.
   */
  ghost predicate Agree(p: Policy, v: Value, w: Value, inHeaders: bool, depth: nat)
    decreases v, 1, 0
  {
    if depth > MAX_SANITIZE_DEPTH && IsContainer(v) then IsContainer(w)
    else
      match v
      case Mapping(_, entries) => w.Mapping? && AgreeEntries(p, entries, w.entries, inHeaders, depth)
      case List(items) => w.List? && AgreeItems(p, items, w.items, depth + 1)
      case Tuple(items) => w.Tuple? && AgreeItems(p, items, w.items, depth + 1)
      case _ => v == w
  }

  ghost predicate AgreeItems(p: Policy, a: seq<Value>, b: seq<Value>, depth: nat)
    decreases a, 0, 0
  {
    if a == [] then b == []
    else b != [] && Agree(p, a[0], b[0], false, depth) && AgreeItems(p, a[1..], b[1..], depth)
  }

  /** Entries that vanish may be added, left out or changed freely; the others must match in order. */
  ghost predicate AgreeEntries(p: Policy, a: seq<Entry>, b: seq<Entry>, inHeaders: bool, depth: nat)
    decreases a, 0, |b|
  {
    if a != [] && Vanishes(p, a[0].key.text, inHeaders, depth) then AgreeEntries(p, a[1..], b, inHeaders, depth)
    else if b != [] && Vanishes(p, b[0].key.text, inHeaders, depth) then AgreeEntries(p, a, b[1..], inHeaders, depth)
    else if a == [] then b == []
    else b != [] && AgreeEntry(p, a[0], b[0], inHeaders, depth) && AgreeEntries(p, a[1..], b[1..], inHeaders, depth)
  }

  ghost predicate AgreeEntry(p: Policy, e: Entry, f: Entry, inHeaders: bool, depth: nat)
    decreases e, 0, 0
  {
    && e.key.text == f.key.text
    && (VerdictOf(p, e.key.text, inHeaders, depth).Kept? ==>
          Agree(p, e.value, f.value, OpensHeaders(p, e.key.text), depth + 1))
    && (VerdictOf(p, e.key.text, inHeaders, depth).Redacted? && p.mode.Hash? ==> p.hash(e.value) == p.hash(f.value))
  }

  /** The output is a function of what the two inputs agree on. */
  lemma {:induction false} NonInterference(p: Policy, v: Value, w: Value, inHeaders: bool, depth: nat)
    requires Agree(p, v, w, inHeaders, depth)
    ensures SanitizeValue(p, v, inHeaders, depth) == SanitizeValue(p, w, inHeaders, depth)
    decreases v, 1, 0
  {
    if !(depth > MAX_SANITIZE_DEPTH && IsContainer(v)) {
      match v
      case Mapping(_, entries) => NonInterferenceEntries(p, [], entries, w.entries, inHeaders, depth);
      case List(items) => NonInterferenceItems(p, items, w.items, depth + 1);
      case Tuple(items) => NonInterferenceItems(p, items, w.items, depth + 1);
      case _ =>
    }
  }

  lemma {:induction false} NonInterferenceItems(p: Policy, a: seq<Value>, b: seq<Value>, depth: nat)
    requires AgreeItems(p, a, b, depth)
    ensures SanitizeItems(p, a, depth) == SanitizeItems(p, b, depth)
    decreases a, 0, 0
  {
    if a != [] {
      NonInterference(p, a[0], b[0], false, depth);
      NonInterferenceItems(p, a[1..], b[1..], depth);
    }
  }

  lemma {:induction false} NonInterferenceEntries(
    p: Policy, out: seq<Entry>, a: seq<Entry>, b: seq<Entry>, inHeaders: bool, depth: nat)
    requires AgreeEntries(p, a, b, inHeaders, depth)
    ensures SanitizeFrom(p, out, a, inHeaders, depth) == SanitizeFrom(p, out, b, inHeaders, depth)
    decreases a, 0, |b|
  {
    if a != [] && Vanishes(p, a[0].key.text, inHeaders, depth) {
      NonInterferenceEntries(p, out, a[1..], b, inHeaders, depth);
    } else if b != [] && Vanishes(p, b[0].key.text, inHeaders, depth) {
      NonInterferenceEntries(p, out, a, b[1..], inHeaders, depth);
    } else if a != [] {
      NonInterferenceEntry(p, out, a[0], b[0], inHeaders, depth);
      NonInterferenceEntries(p, SanitizeInto(p, out, a[0], inHeaders, depth), a[1..], b[1..], inHeaders, depth);
    }
  }

  lemma {:induction false} NonInterferenceEntry(
    p: Policy, out: seq<Entry>, e: Entry, f: Entry, inHeaders: bool, depth: nat)
    requires AgreeEntry(p, e, f, inHeaders, depth)
    ensures SanitizeInto(p, out, e, inHeaders, depth) == SanitizeInto(p, out, f, inHeaders, depth)
    decreases e, 0, 0
  {
    if VerdictOf(p, e.key.text, inHeaders, depth).Kept? {
      NonInterference(p, e.value, f.value, OpensHeaders(p, e.key.text), depth + 1);
    }
  }

  /** Two events that agree outside what the policy hides are written identically. */
  lemma EventNonInterference(p: Policy, a: seq<Entry>, b: seq<Entry>)
    requires AgreeEntries(p, a, b, false, 0)
    ensures SanitizeEvent(p, a) == SanitizeEvent(p, b)
  {
    NonInterferenceEntries(p, [], a, b, false, 0);
  }

  // ---------------------------------------------------------------- fixed points

  predicate HasKey(entries: seq<Entry>, text: string) {
    exists i :: 0 <= i < |entries| && entries[i].key.text == text
  }

  /**
   Nothing is left to do: no key is removed or unmasked, keys are distinct strings, and no container is
   too deep.
   */
  ghost predicate Clean(p: Policy, v: Value, inHeaders: bool, depth: nat)
    decreases v, 1
  {
    && (IsContainer(v) ==> depth <= MAX_SANITIZE_DEPTH)
    && match v
       case Mapping(_, entries) => v.dict && CleanEntries(p, entries, inHeaders, depth)
       case List(items) => CleanItems(p, items, depth + 1)
       case Tuple(items) => CleanItems(p, items, depth + 1)
       case _ => true
  }

  ghost predicate CleanItems(p: Policy, items: seq<Value>, depth: nat)
    decreases items, 0
  {
    items != [] ==> Clean(p, items[0], false, depth) && CleanItems(p, items[1..], depth)
  }

  ghost predicate CleanEntries(p: Policy, entries: seq<Entry>, inHeaders: bool, depth: nat)
    decreases entries, 0
  {
    entries != [] ==>
      && CleanEntry(p, entries[0], inHeaders, depth)
      && !HasKey(entries[1..], entries[0].key.text)
      && CleanEntries(p, entries[1..], inHeaders, depth)
  }

  ghost predicate CleanEntry(p: Policy, e: Entry, inHeaders: bool, depth: nat)
    decreases e, 0
  {
    && e.key.kind == 0
    && match VerdictOf(p, e.key.text, inHeaders, depth)
       case Removed => false
       case Redacted => p.mode.Mask? && e.value == Str(p.maskText)
       case Kept => Clean(p, e.value, OpensHeaders(p, e.key.text), depth + 1)
  }

  lemma {:induction false} StoreKeys(out: seq<Entry>, text: string, value: Value)
    ensures forall t :: HasKey(Store(out, text, value), t) <==> HasKey(out, t) || t == text
  {
    if out == [] {
      assert Store(out, text, value)[0].key.text == text;
    } else {
      StoreKeys(out[1..], text, value);
      HeadKeys(out);
      HeadKeys(Store(out, text, value));
    }
  }

  lemma HeadKeys(entries: seq<Entry>)
    requires entries != []
    ensures forall t :: HasKey(entries, t) <==> entries[0].key.text == t || HasKey(entries[1..], t)
  {
    forall t
      ensures HasKey(entries, t) <==> entries[0].key.text == t || HasKey(entries[1..], t)
    {
      if HasKey(entries[1..], t) {
        var i :| 0 <= i < |entries[1..]| && entries[1..][i].key.text == t;
        assert entries[i + 1].key.text == t;
      }
      if HasKey(entries, t) && entries[0].key.text != t {
        var i :| 0 <= i < |entries| && entries[i].key.text == t;
        assert entries[1..][i - 1].key.text == t;
      }
    }
  }

  lemma {:induction false} StoreClean(
    p: Policy, out: seq<Entry>, text: string, value: Value, inHeaders: bool, depth: nat)
    requires CleanEntries(p, out, inHeaders, depth)
    requires CleanEntry(p, Entry(Key(0, text), value), inHeaders, depth)
    ensures CleanEntries(p, Store(out, text, value), inHeaders, depth)
  {
    if out != [] && out[0].key.text != text {
      StoreClean(p, out[1..], text, value, inHeaders, depth);
      StoreKeys(out[1..], text, value);
    }
  }

  lemma {:induction false} OutputClean(p: Policy, v: Value, inHeaders: bool, depth: nat)
    requires !p.mode.Hash?
    ensures Clean(p, SanitizeValue(p, v, inHeaders, depth), inHeaders, depth)
    decreases v, 1
  {
    if !(depth > MAX_SANITIZE_DEPTH && IsContainer(v)) {
      match v
      case Mapping(_, entries) => OutputCleanEntries(p, [], entries, inHeaders, depth);
      case List(items) => OutputCleanItems(p, items, depth + 1);
      case Tuple(items) => OutputCleanItems(p, items, depth + 1);
      case _ =>
    }
  }

  lemma {:induction false} OutputCleanItems(p: Policy, items: seq<Value>, depth: nat)
    requires !p.mode.Hash?
    ensures CleanItems(p, SanitizeItems(p, items, depth), depth)
    decreases items, 0
  {
    if items != [] {
      OutputClean(p, items[0], false, depth);
      OutputCleanItems(p, items[1..], depth);
      assert SanitizeItems(p, items, depth)[1..] == SanitizeItems(p, items[1..], depth);
    }
  }

  lemma {:induction false} OutputCleanEntries(
    p: Policy, out: seq<Entry>, entries: seq<Entry>, inHeaders: bool, depth: nat)
    requires !p.mode.Hash? && CleanEntries(p, out, inHeaders, depth)
    ensures CleanEntries(p, SanitizeFrom(p, out, entries, inHeaders, depth), inHeaders, depth)
    decreases entries, 0
  {
    if entries != [] {
      OutputCleanEntry(p, out, entries[0], inHeaders, depth);
      OutputCleanEntries(p, SanitizeInto(p, out, entries[0], inHeaders, depth), entries[1..], inHeaders, depth);
    }
  }

  lemma {:induction false} OutputCleanEntry(p: Policy, out: seq<Entry>, e: Entry, inHeaders: bool, depth: nat)
    requires !p.mode.Hash? && CleanEntries(p, out, inHeaders, depth)
    ensures CleanEntries(p, SanitizeInto(p, out, e, inHeaders, depth), inHeaders, depth)
    decreases e, 0
  {
    var text := e.key.text;
    match VerdictOf(p, text, inHeaders, depth)
    case Removed =>
    case Redacted =>
      if p.mode.Mask? {
        StoreClean(p, out, text, Str(p.maskText), inHeaders, depth);
      }
    case Kept =>
      OutputClean(p, e.value, OpensHeaders(p, text), depth + 1);
      StoreClean(p, out, text, SanitizeValue(p, e.value, OpensHeaders(p, text), depth + 1), inHeaders, depth);
  }

  lemma {:induction false} CleanIsFixed(p: Policy, v: Value, inHeaders: bool, depth: nat)
    requires Clean(p, v, inHeaders, depth)
    ensures SanitizeValue(p, v, inHeaders, depth) == v
    decreases v, 1
  {
    match v
    case Mapping(_, entries) => CleanFixedEntries(p, [], entries, inHeaders, depth);
    case List(items) => CleanFixedItems(p, items, depth + 1);
    case Tuple(items) => CleanFixedItems(p, items, depth + 1);
    case _ =>
  }

  lemma {:induction false} CleanFixedItems(p: Policy, items: seq<Value>, depth: nat)
    requires CleanItems(p, items, depth)
    ensures SanitizeItems(p, items, depth) == items
    decreases items, 0
  {
    if items != [] {
      CleanIsFixed(p, items[0], false, depth);
      CleanFixedItems(p, items[1..], depth);
    }
  }

  lemma {:induction false} CleanFixedEntries(
    p: Policy, out: seq<Entry>, entries: seq<Entry>, inHeaders: bool, depth: nat)
    requires CleanEntries(p, entries, inHeaders, depth)
    requires forall t :: HasKey(entries, t) ==> !HasKey(out, t)
    ensures SanitizeFrom(p, out, entries, inHeaders, depth) == out + entries
    decreases entries, 0
  {
    if entries != [] {
      var e := entries[0];
      HeadKeys(entries);
      CleanFixedEntry(p, out, e, inHeaders, depth);
      StoreKeys(out, e.key.text, e.value);
      CleanFixedEntries(p, out + [e], entries[1..], inHeaders, depth);
      assert out + [e] + entries[1..] == out + entries;
    }
  }

  lemma {:induction false} CleanFixedEntry(p: Policy, out: seq<Entry>, e: Entry, inHeaders: bool, depth: nat)
    requires CleanEntry(p, e, inHeaders, depth) && !HasKey(out, e.key.text)
    ensures SanitizeInto(p, out, e, inHeaders, depth) == out + [e] == Store(out, e.key.text, e.value)
    decreases e, 0
  {
    StoreAbsent(out, e);
    if VerdictOf(p, e.key.text, inHeaders, depth).Kept? {
      CleanIsFixed(p, e.value, OpensHeaders(p, e.key.text), depth + 1);
    }
  }

  lemma {:induction false} StoreAbsent(out: seq<Entry>, e: Entry)
    requires e.key.kind == 0 && !HasKey(out, e.key.text)
    ensures Store(out, e.key.text, e.value) == out + [e]
  {
    if out != [] {
      HeadKeys(out);
      StoreAbsent(out[1..], e);
      assert [out[0]] + (out[1..] + [e]) == out + [e];
    }
  }

  /** In mask and drop modes the clean values are exactly those redaction leaves alone. */
  lemma FixedPoints(p: Policy, v: Value, inHeaders: bool, depth: nat)
    requires !p.mode.Hash?
    ensures SanitizeValue(p, v, inHeaders, depth) == v <==> Clean(p, v, inHeaders, depth)
  {
    OutputClean(p, v, inHeaders, depth);
    if Clean(p, v, inHeaders, depth) {
      CleanIsFixed(p, v, inHeaders, depth);
    }
  }

  /** Redacting twice is redacting once. */
  lemma EventIdempotent(p: Policy, data: seq<Entry>)
    requires !p.mode.Hash?
    ensures SanitizeEvent(p, SanitizeEvent(p, data)) == SanitizeEvent(p, data)
  {
    OutputCleanEntries(p, [], data, false, 0);
    CleanFixedEntries(p, [], SanitizeEvent(p, data), false, 0);
  }

  // ---------------------------------------------------------------- depth

  function Max(a: nat, b: nat): nat {
    if a < b then b else a
  }

  /** How many containers are nested inside each other. */
  function Nesting(v: Value): nat
    decreases v, 1
  {
    match v
    case Mapping(_, entries) => 1 + NestingEntries(entries)
    case List(items) => 1 + NestingItems(items)
    case Tuple(items) => 1 + NestingItems(items)
    case _ => 0
  }

  function NestingItems(items: seq<Value>): nat
    decreases items, 0
  {
    if items == [] then 0 else Max(Nesting(items[0]), NestingItems(items[1..]))
  }

  function NestingEntries(entries: seq<Entry>): nat
    decreases entries, 0
  {
    if entries == [] then 0 else Max(NestingEntry(entries[0]), NestingEntries(entries[1..]))
  }

  function NestingEntry(e: Entry): nat
    decreases e, 0
  {
    Nesting(e.value)
  }

  /** Containers that may still be nested at this depth. */
  function Room(depth: nat): nat {
    if depth > MAX_SANITIZE_DEPTH then 0 else MAX_SANITIZE_DEPTH + 1 - depth
  }

  lemma {:induction false} StoreNesting(out: seq<Entry>, text: string, value: Value, bound: nat)
    requires NestingEntries(out) <= bound && Nesting(value) <= bound
    ensures NestingEntries(Store(out, text, value)) <= bound
  {
    if out != [] && out[0].key.text != text {
      StoreNesting(out[1..], text, value, bound);
    }
  }

  lemma {:induction false} OutputNesting(p: Policy, v: Value, inHeaders: bool, depth: nat)
    ensures Nesting(SanitizeValue(p, v, inHeaders, depth)) <= Room(depth)
    decreases v, 1
  {
    if depth <= MAX_SANITIZE_DEPTH {
      match v
      case Mapping(_, entries) => OutputNestingEntries(p, [], entries, inHeaders, depth);
      case List(items) => OutputNestingItems(p, items, depth + 1);
      case Tuple(items) => OutputNestingItems(p, items, depth + 1);
      case _ =>
    }
  }

  lemma {:induction false} OutputNestingItems(p: Policy, items: seq<Value>, depth: nat)
    ensures NestingItems(SanitizeItems(p, items, depth)) <= Room(depth)
    decreases items, 0
  {
    if items != [] {
      OutputNesting(p, items[0], false, depth);
      OutputNestingItems(p, items[1..], depth);
      assert SanitizeItems(p, items, depth)[1..] == SanitizeItems(p, items[1..], depth);
    }
  }

  lemma {:induction false} OutputNestingEntries(
    p: Policy, out: seq<Entry>, entries: seq<Entry>, inHeaders: bool, depth: nat)
    requires NestingEntries(out) <= Room(depth + 1)
    ensures NestingEntries(SanitizeFrom(p, out, entries, inHeaders, depth)) <= Room(depth + 1)
    decreases entries, 0
  {
    if entries != [] {
      OutputNestingEntry(p, out, entries[0], inHeaders, depth);
      OutputNestingEntries(p, SanitizeInto(p, out, entries[0], inHeaders, depth), entries[1..], inHeaders, depth);
    }
  }

  lemma {:induction false} OutputNestingEntry(p: Policy, out: seq<Entry>, e: Entry, inHeaders: bool, depth: nat)
    requires NestingEntries(out) <= Room(depth + 1)
    ensures NestingEntries(SanitizeInto(p, out, e, inHeaders, depth)) <= Room(depth + 1)
    decreases e, 0
  {
    var text := e.key.text;
    match VerdictOf(p, text, inHeaders, depth)
    case Removed =>
    case Redacted =>
      StoreNesting(out, text, Str(p.maskText), Room(depth + 1));
      StoreNesting(out, text, Str(p.hash(e.value)), Room(depth + 1));
    case Kept =>
      OutputNesting(p, e.value, OpensHeaders(p, text), depth + 1);
      StoreNesting(out, text, SanitizeValue(p, e.value, OpensHeaders(p, text), depth + 1), Room(depth + 1));
  }

  /** Whatever the input, a redacted event nests at most 33 containers. */
  lemma EventNesting(p: Policy, data: seq<Entry>)
    ensures Nesting(Mapping(true, SanitizeEvent(p, data))) <= 33
  {
    OutputNestingEntries(p, [], data, false, 0);
  }

  function Chain(n: nat): Value {
    if n == 0 then Null else List([Chain(n - 1)])
  }

  /** The cap is exact: nested lists keep exactly the levels there is room for. */
  lemma {:induction false} ChainCut(p: Policy, n: nat, inHeaders: bool, depth: nat)
    ensures Nesting(SanitizeValue(p, Chain(n), inHeaders, depth)) == (if n < Room(depth) then n else Room(depth))
  {
    if n > 0 && depth <= MAX_SANITIZE_DEPTH {
      var inner := Chain(n - 1);
      ChainCut(p, n - 1, false, depth + 1);
      assert SanitizeItems(p, [inner], depth + 1) == [SanitizeValue(p, inner, false, depth + 1)];
      var out := [SanitizeValue(p, inner, false, depth + 1)];
      assert NestingItems(out) == Max(Nesting(out[0]), NestingItems(out[1..]));
    }
  }

  // ---------------------------------------------------------------- what is written, and where it comes from

  datatype PathStep = AtKey(text: string) | AtIndex(i: nat)

  /** `v` holds the scalar `s` at this path. */
  ghost predicate Holds(v: Value, path: seq<PathStep>, s: Value)
    decreases |path|
  {
    if path == [] then v == s && !IsContainer(v)
    else
      match v
      case Mapping(_, entries) =>
        path[0].AtKey? && exists i :: 0 <= i < |entries| && entries[i].key.text == path[0].text
                                      && Holds(entries[i].value, path[1..], s)
      case List(items) => path[0].AtIndex? && path[0].i < |items| && Holds(items[path[0].i], path[1..], s)
      case Tuple(items) => path[0].AtIndex? && path[0].i < |items| && Holds(items[path[0].i], path[1..], s)
      case _ => false
  }

  /** The same, reached only through kept keys and containers within the depth cap. */
  ghost predicate Visible(p: Policy, v: Value, path: seq<PathStep>, s: Value, inHeaders: bool, depth: nat)
    decreases |path|
  {
    if path == [] then v == s && !IsContainer(v)
    else
      && depth <= MAX_SANITIZE_DEPTH
      && match v
         case Mapping(_, entries) =>
           path[0].AtKey? && exists i :: 0 <= i < |entries| && entries[i].key.text == path[0].text
                                         && VisibleThrough(p, entries[i], path, s, inHeaders, depth)
         case List(items) =>
           path[0].AtIndex? && path[0].i < |items| && Visible(p, items[path[0].i], path[1..], s, false, depth + 1)
         case Tuple(items) =>
           path[0].AtIndex? && path[0].i < |items| && Visible(p, items[path[0].i], path[1..], s, false, depth + 1)
         case _ => false
  }

  ghost predicate VisibleThrough(p: Policy, e: Entry, path: seq<PathStep>, s: Value, inHeaders: bool, depth: nat)
    requires path != []
    decreases |path|, 0
  {
    && VerdictOf(p, e.key.text, inHeaders, depth).Kept?
    && Visible(p, e.value, path[1..], s, OpensHeaders(p, e.key.text), depth + 1)
  }

  /** The scalar that redaction writes in place of this value, in mask and hash modes. */
  function RedactedText(p: Policy, value: Value): Value {
    if p.mode.Hash? then Str(p.hash(value)) else Str(p.maskText)
  }

  /**
   The scalar `s` stands at this path for what is hidden there: for the value under a sensitive key, or for a
   container beyond the depth cap, reached only through kept keys and containers within it.
   */
  ghost predicate Covered(p: Policy, v: Value, path: seq<PathStep>, s: Value, inHeaders: bool, depth: nat)
    decreases |path|
  {
    if path == [] then depth > MAX_SANITIZE_DEPTH && IsContainer(v) && s == Str(p.maskText)
    else
      && depth <= MAX_SANITIZE_DEPTH
      && match v
         case Mapping(_, entries) =>
           path[0].AtKey? && exists i :: 0 <= i < |entries| && entries[i].key.text == path[0].text
                                         && CoveredThrough(p, entries[i], path, s, inHeaders, depth)
         case List(items) =>
           path[0].AtIndex? && path[0].i < |items| && Covered(p, items[path[0].i], path[1..], s, false, depth + 1)
         case Tuple(items) =>
           path[0].AtIndex? && path[0].i < |items| && Covered(p, items[path[0].i], path[1..], s, false, depth + 1)
         case _ => false
  }

  ghost predicate CoveredThrough(p: Policy, e: Entry, path: seq<PathStep>, s: Value, inHeaders: bool, depth: nat)
    requires path != []
    decreases |path|, 0
  {
    match VerdictOf(p, e.key.text, inHeaders, depth)
    case Removed => false
    case Redacted => !p.mode.Drop? && path[1..] == [] && s == RedactedText(p, e.value)
    case Kept => Covered(p, e.value, path[1..], s, OpensHeaders(p, e.key.text), depth + 1)
  }

  /** The output entry `o` is what entry `e` turns into. */
  ghost predicate Becomes(p: Policy, e: Entry, o: Entry, inHeaders: bool, depth: nat) {
    && o.key == Key(0, e.key.text)
    && match VerdictOf(p, e.key.text, inHeaders, depth)
       case Removed => false
       case Redacted => !p.mode.Drop? && o.value == RedactedText(p, e.value)
       case Kept => o.value == SanitizeValue(p, e.value, OpensHeaders(p, e.key.text), depth + 1)
  }

  lemma {:induction false} StoreMembers(out: seq<Entry>, text: string, value: Value)
    ensures forall o :: o in Store(out, text, value) ==> o in out || o == Entry(Key(0, text), value)
    ensures Entry(Key(0, text), value) in Store(out, text, value)
    ensures forall o :: o in out && o.key.text != text ==> o in Store(out, text, value)
  {
    if out != [] && out[0].key.text != text {
      StoreMembers(out[1..], text, value);
    }
  }

  lemma SanitizeIntoMembers(p: Policy, out: seq<Entry>, e: Entry, inHeaders: bool, depth: nat)
    ensures forall o :: o in SanitizeInto(p, out, e, inHeaders, depth) ==>
              o in out || Becomes(p, e, o, inHeaders, depth)
    ensures forall o :: o in out && o.key.text != e.key.text ==> o in SanitizeInto(p, out, e, inHeaders, depth)
  {
    var text := e.key.text;
    match VerdictOf(p, text, inHeaders, depth)
    case Removed =>
    case Redacted =>
      StoreMembers(out, text, Str(p.maskText));
      StoreMembers(out, text, Str(p.hash(e.value)));
    case Kept =>
      StoreMembers(out, text, SanitizeValue(p, e.value, OpensHeaders(p, text), depth + 1));
  }

  /** Every entry of the output comes from an entry of the input. */
  lemma {:induction false} OutputEntryOrigin(
    p: Policy, out: seq<Entry>, entries: seq<Entry>, inHeaders: bool, depth: nat, o: Entry)
    requires o in SanitizeFrom(p, out, entries, inHeaders, depth) && o !in out
    ensures exists i :: 0 <= i < |entries| && Becomes(p, entries[i], o, inHeaders, depth)
    decreases |entries|
  {
    SanitizeIntoMembers(p, out, entries[0], inHeaders, depth);
    var next := SanitizeInto(p, out, entries[0], inHeaders, depth);
    if o !in next {
      OutputEntryOrigin(p, next, entries[1..], inHeaders, depth, o);
      var i :| 0 <= i < |entries[1..]| && Becomes(p, entries[1..][i], o, inHeaders, depth);
      assert entries[i + 1] == entries[1..][i];
    }
  }

  /**
   Nothing is invented and nothing hidden leaks: a scalar in the output was at the same path of the input, reached
   only through kept keys and within the depth cap, or it stands for what is hidden at that path.
   */
  lemma {:induction false} Provenance(p: Policy, v: Value, path: seq<PathStep>, s: Value, inHeaders: bool, depth: nat)
    requires Holds(SanitizeValue(p, v, inHeaders, depth), path, s)
    ensures Visible(p, v, path, s, inHeaders, depth) || Covered(p, v, path, s, inHeaders, depth)
    decreases |path|, 2
  {
    if path != [] && depth <= MAX_SANITIZE_DEPTH {
      match v
      case Mapping(_, entries) => ProvenanceEntries(p, v.dict, entries, path, s, inHeaders, depth);
      case List(items) =>
        SanitizeItemsAt(p, items, depth + 1, path[0].i);
        Provenance(p, items[path[0].i], path[1..], s, false, depth + 1);
      case Tuple(items) =>
        SanitizeItemsAt(p, items, depth + 1, path[0].i);
        Provenance(p, items[path[0].i], path[1..], s, false, depth + 1);
      case _ =>
    }
  }

  lemma {:induction false} ProvenanceEntry(
    p: Policy, e: Entry, o: Entry, path: seq<PathStep>, s: Value, inHeaders: bool, depth: nat)
    requires path != [] && Becomes(p, e, o, inHeaders, depth) && Holds(o.value, path[1..], s)
    ensures VisibleThrough(p, e, path, s, inHeaders, depth) || CoveredThrough(p, e, path, s, inHeaders, depth)
    decreases |path|, 0
  {
    if VerdictOf(p, e.key.text, inHeaders, depth).Kept? {
      Provenance(p, e.value, path[1..], s, OpensHeaders(p, e.key.text), depth + 1);
    } else {
      assert path[1..] == [];
    }
  }

  lemma {:induction false} ProvenanceEntries(
    p: Policy, dict: bool, entries: seq<Entry>, path: seq<PathStep>, s: Value, inHeaders: bool, depth: nat)
    requires path != [] && depth <= MAX_SANITIZE_DEPTH
    requires Holds(Mapping(true, SanitizeFrom(p, [], entries, inHeaders, depth)), path, s)
    ensures Visible(p, Mapping(dict, entries), path, s, inHeaders, depth)
            || Covered(p, Mapping(dict, entries), path, s, inHeaders, depth)
    decreases |path|, 1
  {
    var out := SanitizeFrom(p, [], entries, inHeaders, depth);
    var j :| 0 <= j < |out| && out[j].key.text == path[0].text && Holds(out[j].value, path[1..], s);
    OutputEntryOrigin(p, [], entries, inHeaders, depth, out[j]);
    var i :| 0 <= i < |entries| && Becomes(p, entries[i], out[j], inHeaders, depth);
    ProvenanceEntry(p, entries[i], out[j], path, s, inHeaders, depth);
  }

  lemma {:induction false} SanitizeItemsAt(p: Policy, items: seq<Value>, depth: nat, i: nat)
    requires i < |items|
    ensures SanitizeItems(p, items, depth)[i] == SanitizeValue(p, items[i], false, depth)
    decreases |items|
  {
    if i > 0 {
      SanitizeItemsAt(p, items[1..], depth, i - 1);
    }
  }

  /** No two keys of any mapping along this path share a string form. */
  ghost predicate Unambiguous(v: Value, path: seq<PathStep>)
    decreases |path|
  {
    path != [] ==>
      match v
      case Mapping(_, entries) =>
        && (forall i, j :: 0 <= i < j < |entries| ==> entries[i].key.text != entries[j].key.text)
        && (forall i :: 0 <= i < |entries| ==> Unambiguous(entries[i].value, path[1..]))
      case List(items) => forall i :: 0 <= i < |items| ==> Unambiguous(items[i], path[1..])
      case Tuple(items) => forall i :: 0 <= i < |items| ==> Unambiguous(items[i], path[1..])
      case _ => true
  }

  /** An entry already copied stays, unless a later key has the same string form. */
  lemma {:induction false} EntryStays(
    p: Policy, out: seq<Entry>, entries: seq<Entry>, inHeaders: bool, depth: nat, o: Entry)
    requires o in out && forall i :: 0 <= i < |entries| ==> entries[i].key.text != o.key.text
    ensures o in SanitizeFrom(p, out, entries, inHeaders, depth)
    decreases |entries|
  {
    if entries != [] {
      SanitizeIntoMembers(p, out, entries[0], inHeaders, depth);
      EntryStays(p, SanitizeInto(p, out, entries[0], inHeaders, depth), entries[1..], inHeaders, depth, o);
    }
  }

  /** What an entry turns into is written, unless a later key has the same string form. */
  lemma {:induction false} EntryWritten(
    p: Policy, out: seq<Entry>, entries: seq<Entry>, inHeaders: bool, depth: nat, i: nat, o: Entry)
    requires i < |entries| && Becomes(p, entries[i], o, inHeaders, depth)
    requires forall j :: i < j < |entries| ==> entries[j].key.text != entries[i].key.text
    ensures o in SanitizeFrom(p, out, entries, inHeaders, depth)
    decreases |entries|
  {
    var next := SanitizeInto(p, out, entries[0], inHeaders, depth);
    if i > 0 {
      EntryWritten(p, next, entries[1..], inHeaders, depth, i - 1, o);
    } else {
      StoreMembers(out, o.key.text, o.value);
      EntryStays(p, next, entries[1..], inHeaders, depth, o);
    }
  }

  /** Every visible scalar is written unchanged at the same path, and every replacement where it stands. */
  lemma {:induction false} Survival(p: Policy, v: Value, path: seq<PathStep>, s: Value, inHeaders: bool, depth: nat)
    requires Visible(p, v, path, s, inHeaders, depth) || Covered(p, v, path, s, inHeaders, depth)
    requires Unambiguous(v, path)
    ensures Holds(SanitizeValue(p, v, inHeaders, depth), path, s)
    decreases |path|, 2
  {
    if path != [] {
      match v
      case Mapping(_, entries) => SurvivalEntries(p, v.dict, entries, path, s, inHeaders, depth);
      case List(items) =>
        SanitizeItemsAt(p, items, depth + 1, path[0].i);
        Survival(p, items[path[0].i], path[1..], s, false, depth + 1);
      case Tuple(items) =>
        SanitizeItemsAt(p, items, depth + 1, path[0].i);
        Survival(p, items[path[0].i], path[1..], s, false, depth + 1);
    }
  }

  lemma {:induction false} SurvivalEntry(
    p: Policy, e: Entry, path: seq<PathStep>, s: Value, inHeaders: bool, depth: nat) returns (o: Entry)
    requires path != [] && Unambiguous(e.value, path[1..])
    requires VisibleThrough(p, e, path, s, inHeaders, depth) || CoveredThrough(p, e, path, s, inHeaders, depth)
    ensures Becomes(p, e, o, inHeaders, depth) && Holds(o.value, path[1..], s)
    decreases |path|, 0
  {
    var text := e.key.text;
    if VerdictOf(p, text, inHeaders, depth).Kept? {
      Survival(p, e.value, path[1..], s, OpensHeaders(p, text), depth + 1);
      o := Entry(Key(0, text), SanitizeValue(p, e.value, OpensHeaders(p, text), depth + 1));
    } else {
      o := Entry(Key(0, text), RedactedText(p, e.value));
    }
  }

  lemma {:induction false} SurvivalEntries(
    p: Policy, dict: bool, entries: seq<Entry>, path: seq<PathStep>, s: Value, inHeaders: bool, depth: nat)
    requires path != [] && Unambiguous(Mapping(dict, entries), path)
    requires Visible(p, Mapping(dict, entries), path, s, inHeaders, depth)
             || Covered(p, Mapping(dict, entries), path, s, inHeaders, depth)
    ensures Holds(Mapping(true, SanitizeFrom(p, [], entries, inHeaders, depth)), path, s)
    decreases |path|, 1
  {
    var i :| 0 <= i < |entries| && entries[i].key.text == path[0].text
             && (VisibleThrough(p, entries[i], path, s, inHeaders, depth)
                 || CoveredThrough(p, entries[i], path, s, inHeaders, depth));
    var o := SurvivalEntry(p, entries[i], path, s, inHeaders, depth);
    EntryWritten(p, [], entries, inHeaders, depth, i, o);
  }

  /** On unambiguous paths the scalars of the output are exactly the visible ones and the replacements. */
  lemma {:induction false} OutputExact(p: Policy, v: Value, path: seq<PathStep>, s: Value, inHeaders: bool, depth: nat)
    requires Unambiguous(v, path)
    ensures Holds(SanitizeValue(p, v, inHeaders, depth), path, s)
            <==> Visible(p, v, path, s, inHeaders, depth) || Covered(p, v, path, s, inHeaders, depth)
  {
    if Holds(SanitizeValue(p, v, inHeaders, depth), path, s) {
      Provenance(p, v, path, s, inHeaders, depth);
    } else if Visible(p, v, path, s, inHeaders, depth) || Covered(p, v, path, s, inHeaders, depth) {
      Survival(p, v, path, s, inHeaders, depth);
    }
  }

  // ---------------------------------------------------------------- log records

  /** The record's `event` is a dictionary and there is an event allowlist to apply to it. */
  predicate WritesBack(p: Policy, data: seq<Entry>) {
    var event := Find(data, Key(0, "event"));
    p.eventAllowlist.Only? && event.Mapping? && event.dict
  }

  /** `sanitize_record`: the event allowlist applies to the record's `event` only, after the rest. */
  function SanitizeRecord(p: Policy, data: seq<Entry>): seq<Entry> {
    var out := SanitizeFrom(p.(eventAllowlist := Everything), [], data, false, 0);
    if WritesBack(p, data) && HasKey(out, "event")
    then Store(out, "event", Mapping(true, SanitizeEvent(p, Find(data, Key(0, "event")).entries)))
    else out
  }

  /** `data.get(key)`. */
  function Find(data: seq<Entry>, key: Key): Value {
    if data == [] then Null else if data[0].key == key then data[0].value else Find(data[1..], key)
  }

  /** The value stored under a string key. */
  function At(out: seq<Entry>, text: string): Value {
    if out == [] then Null else if out[0].key.text == text then out[0].value else At(out[1..], text)
  }

  lemma {:induction false} StoreAt(out: seq<Entry>, text: string, value: Value)
    ensures At(Store(out, text, value), text) == value
    ensures forall t :: t != text ==> At(Store(out, text, value), t) == At(out, t)
  {
    if out != [] && out[0].key.text != text {
      StoreAt(out[1..], text, value);
    }
  }

  /** Entries with other string forms leave the value under `text` alone. */
  lemma {:induction false} OthersLeaveAlone(
    p: Policy, out: seq<Entry>, entries: seq<Entry>, inHeaders: bool, depth: nat, text: string)
    requires !HasKey(entries, text)
    ensures var r := SanitizeFrom(p, out, entries, inHeaders, depth);
            At(r, text) == At(out, text) && (HasKey(r, text) <==> HasKey(out, text))
    decreases |entries|
  {
    if entries != [] {
      HeadKeys(entries);
      var e := entries[0];
      StoreAt(out, e.key.text, Str(p.maskText));
      StoreAt(out, e.key.text, Str(p.hash(e.value)));
      StoreAt(out, e.key.text, SanitizeValue(p, e.value, OpensHeaders(p, e.key.text), depth + 1));
      StoreKeys(out, e.key.text, Str(p.maskText));
      StoreKeys(out, e.key.text, Str(p.hash(e.value)));
      StoreKeys(out, e.key.text, SanitizeValue(p, e.value, OpensHeaders(p, e.key.text), depth + 1));
      OthersLeaveAlone(p, SanitizeInto(p, out, e, inHeaders, depth), entries[1..], inHeaders, depth, text);
    }
  }

  /** The last entry of a sensitive key decides what is written there: the mask, its hash, or nothing at all. */
  lemma {:induction false} RedactedIn(
    p: Policy, out: seq<Entry>, entries: seq<Entry>, inHeaders: bool, depth: nat, i: nat)
    requires i < |entries| && VerdictOf(p, entries[i].key.text, inHeaders, depth).Redacted?
    requires !HasKey(entries[i + 1..], entries[i].key.text)
    ensures var r, text := SanitizeFrom(p, out, entries, inHeaders, depth), entries[i].key.text;
            match p.mode
            case Mask => At(r, text) == Str(p.maskText) && HasKey(r, text)
            case Hash => At(r, text) == Str(p.hash(entries[i].value)) && HasKey(r, text)
            case Drop => At(r, text) == At(out, text) && (HasKey(r, text) <==> HasKey(out, text))
    decreases |entries|
  {
    var e, text := entries[0], entries[i].key.text;
    var next := SanitizeInto(p, out, e, inHeaders, depth);
    if i > 0 {
      assert entries[1..][i - 1 + 1..] == entries[i + 1..];
      RedactedIn(p, next, entries[1..], inHeaders, depth, i - 1);
      if e.key.text != text {
        assert !HasKey([e], text);
        OthersLeaveAlone(p, out, [e], inHeaders, depth, text);
        assert SanitizeFrom(p, out, [e], inHeaders, depth) == next;
      }
    } else {
      StoreAt(out, text, Str(p.maskText));
      StoreAt(out, text, Str(p.hash(e.value)));
      StoreKeys(out, text, Str(p.maskText));
      StoreKeys(out, text, Str(p.hash(e.value)));
      OthersLeaveAlone(p, next, entries[1..], inHeaders, depth, text);
    }
  }

  /**
   A policy that names `event` itself as a redacted field removes a record's event in drop mode. In the other modes
   the mask, or the hash of the last value stored under that name, stays if and only if there is no event allowlist
   or the event is no dictionary; otherwise the redacted event itself is written back.
   */
  lemma RecordEventRedacted(p: Policy, data: seq<Entry>, i: nat)
    requires p.normalize("event") in p.fields
    requires i < |data| && data[i].key.text == "event" && !HasKey(data[i + 1..], "event")
    ensures var out := SanitizeRecord(p, data);
            match p.mode
            case Drop => !HasKey(out, "event")
            case Mask => At(out, "event") == Str(p.maskText) <==> !WritesBack(p, data)
            case Hash => At(out, "event") == Str(p.hash(data[i].value)) <==> !WritesBack(p, data)
    ensures WritesBack(p, data) && !p.mode.Drop? ==>
              At(SanitizeRecord(p, data), "event")
              == Mapping(true, SanitizeEvent(p, Find(data, Key(0, "event")).entries))
  {
    RedactedIn(p.(eventAllowlist := Everything), [], data, false, 0, i);
    if WritesBack(p, data) {
      var out := SanitizeFrom(p.(eventAllowlist := Everything), [], data, false, 0);
      StoreAt(out, "event", Mapping(true, SanitizeEvent(p, Find(data, Key(0, "event")).entries)));
    }
  }

  /** An input that shows it: under mask mode a value of the event named for redaction is written in clear. */
  lemma EventWrittenBack() returns (p: Policy, data: seq<Entry>)
    ensures p.mode.Mask? && p.normalize("event") in p.fields && |data| == 1 && data[0].key == Key(0, "event")
    ensures At(SanitizeRecord(p, data), "event") == Mapping(true, [Entry(Key(0, "name"), Str("value"))])
  {
    p := Policy(Mask, "***", v => "", text => text, {"event"}, {}, Everything, Only({"name"}));
    var event := [Entry(Key(0, "name"), Str("value"))];
    data := [Entry(Key(0, "event"), Mapping(true, event))];
    RecordEventRedacted(p, data, 0);
    assert SanitizeEvent(p, event) == event by {
      assert event[1..] == [];
      assert SanitizeInto(p, [], event[0], false, 0) == event;
    }
  }

  // ---------------------------------------------------------------- the loop

  /** `_sanitize_mapping`: fills the copy entry by entry. */
  method SanitizeMapping(p: Policy, entries: seq<Entry>, inHeaders: bool, depth: nat) returns (out: seq<Entry>)
    ensures out == SanitizeFrom(p, [], entries, inHeaders, depth)
    decreases entries, 0
  {
    out := [];
    for i := 0 to |entries|
      invariant SanitizeFrom(p, out, entries[i..], inHeaders, depth) == SanitizeFrom(p, [], entries, inHeaders, depth)
    {
      assert entries[i..][0] == entries[i] && entries[i..][1..] == entries[i + 1..];
      var k := p.normalize(entries[i].key.text);
      if inHeaders && p.headerAllowlist.Only? && k !in p.headerAllowlist.keys {
        continue;
      }
      if depth == 0 && p.eventAllowlist.Only? && k !in p.eventAllowlist.keys {
        continue;
      }
      if k in p.fields || (inHeaders && k in p.headers) {
        out := RedactInto(p, out, entries[i].key.text, entries[i].value);
        continue;
      }
      var copy := SanitizeEntryValue(p, entries[i], depth);
      out := Store(out, entries[i].key.text, copy);
    }
  }

  /** The copy of a kept entry's value: scalars are passed through, the rest goes one level down. */
  method SanitizeEntryValue(p: Policy, e: Entry, depth: nat) returns (copy: Value)
    ensures copy == SanitizeValue(p, e.value, OpensHeaders(p, e.key.text), depth + 1)
    decreases e, 0
  {
    if !IsContainer(e.value) && !e.value.Object? {
      return e.value;
    }
    copy := Sanitize(p, e.value, p.normalize(e.key.text) == "headers", depth + 1);
  }

  /** `_sanitize_value`. */
  method Sanitize(p: Policy, v: Value, inHeaders: bool, depth: nat) returns (copy: Value)
    ensures copy == SanitizeValue(p, v, inHeaders, depth)
    decreases v, 1
  {
    if depth > MAX_SANITIZE_DEPTH && IsContainer(v) {
      return Str(p.maskText);
    }
    match v {
      case Mapping(_, entries) =>
        var out := SanitizeMapping(p, entries, inHeaders, depth);
        copy := Mapping(true, out);
      case List(items) =>
        var out := SanitizeEach(p, items, depth + 1);
        copy := List(out);
      case Tuple(items) =>
        var out := SanitizeEach(p, items, depth + 1);
        copy := Tuple(out);
      case _ =>
        copy := v;
    }
  }

  method SanitizeEach(p: Policy, items: seq<Value>, depth: nat) returns (out: seq<Value>)
    ensures out == SanitizeItems(p, items, depth)
    decreases items, 0
  {
    out := [];
    for i := 0 to |items|
      invariant out + SanitizeItems(p, items[i..], depth) == SanitizeItems(p, items, depth)
    {
      assert items[i..][0] == items[i] && items[i..][1..] == items[i + 1..];
      var copy := Sanitize(p, items[i], false, depth);
      out := out + [copy];
    }
  }
}
