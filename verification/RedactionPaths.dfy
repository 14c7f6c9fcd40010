/** Redaction told by paths: what a policy's key sets mean for everything that is written, whatever its place. */
module RedactionPaths {
  import opened Redaction

  /** `v` holds the value `u` at this path. */
  ghost predicate Node(v: Value, path: seq<PathStep>, u: Value)
    decreases |path|
  {
    if path == [] then v == u
    else
      match v
      case Mapping(_, entries) =>
        path[0].AtKey? && exists i :: 0 <= i < |entries| && entries[i].key.text == path[0].text
                                      && Node(entries[i].value, path[1..], u)
      case List(items) => path[0].AtIndex? && path[0].i < |items| && Node(items[path[0].i], path[1..], u)
      case Tuple(items) => path[0].AtIndex? && path[0].i < |items| && Node(items[path[0].i], path[1..], u)
      case _ => false
  }

  // ---------------------------------------------------------------- the key sets along a path

  /** Step `i` is taken in the mapping directly under a key named `headers`; `inside` says so of the first step. */
  predicate UnderHeaders(p: Policy, path: seq<PathStep>, i: nat, inside: bool)
    requires i < |path|
  {
    if i == 0 then inside else path[i - 1].AtKey? && p.normalize(path[i - 1].text) == "headers"
  }

  /** The key at step `i` is a sensitive field, or a sensitive header among headers. */
  predicate Sensitive(p: Policy, path: seq<PathStep>, i: nat, inside: bool)
    requires i < |path|
  {
    && path[i].AtKey?
    && (p.normalize(path[i].text) in p.fields
        || (UnderHeaders(p, path, i, inside) && p.normalize(path[i].text) in p.headers))
  }

  /** Every allowlist that applies to the key at step `i` has it. The event allowlist is for the top level. */
  predicate Listed(p: Policy, path: seq<PathStep>, i: nat, inside: bool, depth: nat)
    requires i < |path|
  {
    path[i].AtKey? ==>
      && (UnderHeaders(p, path, i, inside) && p.headerAllowlist.Only? ==>
            p.normalize(path[i].text) in p.headerAllowlist.keys)
      && (depth + i == 0 && p.eventAllowlist.Only? ==> p.normalize(path[i].text) in p.eventAllowlist.keys)
  }

  predicate AllListed(p: Policy, path: seq<PathStep>, inside: bool, depth: nat) {
    forall i :: 0 <= i < |path| ==> Listed(p, path, i, inside, depth)
  }

  /** No key before step `n` is sensitive. */
  predicate PlainBefore(p: Policy, path: seq<PathStep>, n: nat, inside: bool)
    requires n <= |path|
  {
    forall i :: 0 <= i < n ==> !Sensitive(p, path, i, inside)
  }

  /** The containers along the path are within the depth limit. */
  predicate Within(path: seq<PathStep>, depth: nat) {
    path == [] || depth + |path| <= MAX_SANITIZE_DEPTH + 1
  }

  /** The last key of the path is sensitive, and no other. */
  predicate EndsSensitive(p: Policy, path: seq<PathStep>, inside: bool) {
    path != [] && Sensitive(p, path, |path| - 1, inside) && PlainBefore(p, path, |path| - 1, inside)
  }

  /** A copy: a mapping for a mapping, as many items for a list or a tuple, anything else as it is. */
  predicate Copies(u: Value, o: Value) {
    match u
    case Mapping(_, _) => o.Mapping? && o.dict
    case List(items) => o.List? && |o.items| == |items|
    case Tuple(items) => o.Tuple? && |o.items| == |items|
    case _ => o == u
  }

  /** The policy lets something be written at this path. */
  predicate Writable(p: Policy, path: seq<PathStep>, inside: bool, depth: nat) {
    && Within(path, depth)
    && AllListed(p, path, inside, depth)
    && (PlainBefore(p, path, |path|, inside) || (EndsSensitive(p, path, inside) && !p.mode.Drop?))
  }

  /** What is written for the value `u` at a writable path. */
  predicate Written(p: Policy, path: seq<PathStep>, u: Value, o: Value, inside: bool, depth: nat) {
    if EndsSensitive(p, path, inside) then o == Str(if p.mode.Hash? then p.hash(u) else p.maskText)
    else if depth + |path| > MAX_SANITIZE_DEPTH && IsContainer(u) then o == Str(p.maskText)
    else Copies(u, o)
  }

  // ---------------------------------------------------------------- one step

  /** Whether the mapping behind the first step is one of headers. */
  predicate NextInside(p: Policy, step: PathStep) {
    step.AtKey? && p.normalize(step.text) == "headers"
  }

  lemma TailStep(p: Policy, path: seq<PathStep>, inside: bool, depth: nat, i: nat)
    requires i + 1 < |path|
    ensures var rest, next := path[1..], NextInside(p, path[0]);
            && Sensitive(p, rest, i, next) == Sensitive(p, path, i + 1, inside)
            && Listed(p, rest, i, next, depth + 1) == Listed(p, path, i + 1, inside, depth)
  {
    var rest, next := path[1..], NextInside(p, path[0]);
    assert rest[i] == path[i + 1] && (i > 0 ==> rest[i - 1] == path[i]);
    assert UnderHeaders(p, rest, i, next) == UnderHeaders(p, path, i + 1, inside);
  }

  lemma TailListed(p: Policy, path: seq<PathStep>, inside: bool, depth: nat)
    requires path != []
    ensures AllListed(p, path, inside, depth) <==>
            Listed(p, path, 0, inside, depth) && AllListed(p, path[1..], NextInside(p, path[0]), depth + 1)
  {
    var rest, next, below := path[1..], NextInside(p, path[0]), depth + 1;
    forall i | 0 <= i < |rest|
      ensures Listed(p, rest, i, next, below) == Listed(p, path, i + 1, inside, depth)
    {
      TailStep(p, path, inside, depth, i);
    }
    if Listed(p, path, 0, inside, depth) && AllListed(p, rest, next, below) {
      forall i | 0 <= i < |path|
        ensures Listed(p, path, i, inside, depth)
      {
        if i > 0 {
          assert Listed(p, rest, i - 1, next, below);
        }
      }
    }
    if AllListed(p, path, inside, depth) {
      forall i | 0 <= i < |rest|
        ensures Listed(p, rest, i, next, below)
      {
        assert Listed(p, path, i + 1, inside, depth);
      }
    }
  }

  lemma TailPlain(p: Policy, path: seq<PathStep>, n: nat, inside: bool)
    requires 0 < n <= |path|
    ensures PlainBefore(p, path, n, inside) <==>
            !Sensitive(p, path, 0, inside) && PlainBefore(p, path[1..], n - 1, NextInside(p, path[0]))
  {
    var rest, next := path[1..], NextInside(p, path[0]);
    forall i | 0 <= i < n - 1
      ensures Sensitive(p, rest, i, next) == Sensitive(p, path, i + 1, inside)
    {
      TailStep(p, path, inside, 0, i);
    }
    if !Sensitive(p, path, 0, inside) && PlainBefore(p, rest, n - 1, next) {
      forall i | 0 <= i < n
        ensures !Sensitive(p, path, i, inside)
      {
        if i > 0 {
          assert !Sensitive(p, rest, i - 1, next);
        }
      }
    }
    if PlainBefore(p, path, n, inside) {
      forall i | 0 <= i < n - 1
        ensures !Sensitive(p, rest, i, next)
      {
        assert !Sensitive(p, path, i + 1, inside);
      }
    }
  }

  /** A path whose first key is not sensitive is as writable as its rest, from where that starts. */
  lemma TailWritable(p: Policy, path: seq<PathStep>, inside: bool, depth: nat)
    requires path != [] && !Sensitive(p, path, 0, inside) && depth <= MAX_SANITIZE_DEPTH
    ensures Writable(p, path, inside, depth) <==>
            Listed(p, path, 0, inside, depth) && Writable(p, path[1..], NextInside(p, path[0]), depth + 1)
    ensures EndsSensitive(p, path, inside) <==> EndsSensitive(p, path[1..], NextInside(p, path[0]))
  {
    TailListed(p, path, inside, depth);
    TailPlain(p, path, |path|, inside);
    if |path| > 1 {
      TailPlain(p, path, |path| - 1, inside);
      TailStep(p, path, inside, depth, |path| - 2);
    }
  }

  /** A sensitive first key ends the path, and leaves nothing in drop mode. */
  lemma SensitiveFirst(p: Policy, path: seq<PathStep>, inside: bool, depth: nat)
    requires path != [] && Sensitive(p, path, 0, inside) && depth <= MAX_SANITIZE_DEPTH
    ensures Writable(p, path, inside, depth) <==>
            |path| == 1 && Listed(p, path, 0, inside, depth) && !p.mode.Drop?
    ensures EndsSensitive(p, path, inside) <==> |path| == 1
  {
    assert !PlainBefore(p, path, |path|, inside);
    if |path| > 1 {
      assert !PlainBefore(p, path, |path| - 1, inside);
    } else {
      assert AllListed(p, path, inside, depth) <==> Listed(p, path, 0, inside, depth);
    }
  }

  /** What the recursion decides about a key is what the sets say of it. */
  lemma VerdictMeaning(p: Policy, path: seq<PathStep>, inside: bool, depth: nat)
    requires path != [] && path[0].AtKey?
    ensures VerdictOf(p, path[0].text, inside, depth) ==
            if !Listed(p, path, 0, inside, depth) then Removed
            else if Sensitive(p, path, 0, inside) then Redacted
            else Kept
    ensures OpensHeaders(p, path[0].text) == NextInside(p, path[0])
  {
  }

  // ---------------------------------------------------------------- what is written follows the sets

  /**
   Whatever a redacted value holds, at any path, the policy lets something be written there, and it is the copy, or
   the replacement, of what the input holds at that path.
   */
  lemma {:induction false} OutputFollows(
    p: Policy, v: Value, path: seq<PathStep>, o: Value, inside: bool, depth: nat) returns (u: Value)
    requires Node(SanitizeValue(p, v, inside, depth), path, o)
    ensures Node(v, path, u) && Writable(p, path, inside, depth) && Written(p, path, u, o, inside, depth)
    decreases |path|, 2
  {
    if path == [] {
      u := v;
    } else {
      match v
      case Mapping(_, entries) => u := OutputFollowsEntries(p, v.dict, entries, path, o, inside, depth);
      case List(items) =>
        u := OutputFollowsItems(p, items, path, o, inside, depth);
      case Tuple(items) =>
        u := OutputFollowsItems(p, items, path, o, inside, depth);
    }
  }

  lemma {:induction false} OutputFollowsItems(
    p: Policy, items: seq<Value>, path: seq<PathStep>, o: Value, inside: bool, depth: nat) returns (u: Value)
    requires path != [] && path[0].AtIndex? && path[0].i < |items| && depth <= MAX_SANITIZE_DEPTH
    requires Node(SanitizeItems(p, items, depth + 1)[path[0].i], path[1..], o)
    ensures Node(items[path[0].i], path[1..], u)
    ensures Writable(p, path, inside, depth) && Written(p, path, u, o, inside, depth)
    decreases |path|, 1
  {
    SanitizeItemsAt(p, items, depth + 1, path[0].i);
    u := OutputFollows(p, items[path[0].i], path[1..], o, false, depth + 1);
    TailWritable(p, path, inside, depth);
  }

  lemma {:induction false} OutputFollowsEntries(
    p: Policy, dict: bool, entries: seq<Entry>, path: seq<PathStep>, o: Value, inside: bool, depth: nat)
    returns (u: Value)
    requires path != [] && depth <= MAX_SANITIZE_DEPTH
    requires Node(Mapping(true, SanitizeFrom(p, [], entries, inside, depth)), path, o)
    ensures Node(Mapping(dict, entries), path, u)
    ensures Writable(p, path, inside, depth) && Written(p, path, u, o, inside, depth)
    decreases |path|, 1
  {
    var out := SanitizeFrom(p, [], entries, inside, depth);
    var j :| 0 <= j < |out| && out[j].key.text == path[0].text && Node(out[j].value, path[1..], o);
    OutputEntryOrigin(p, [], entries, inside, depth, out[j]);
    var i :| 0 <= i < |entries| && Becomes(p, entries[i], out[j], inside, depth);
    u := OutputFollowsEntry(p, entries[i], out[j], path, o, inside, depth);
  }

  lemma {:induction false} OutputFollowsEntry(
    p: Policy, e: Entry, r: Entry, path: seq<PathStep>, o: Value, inside: bool, depth: nat) returns (u: Value)
    requires path != [] && path[0] == AtKey(e.key.text) && depth <= MAX_SANITIZE_DEPTH
    requires Becomes(p, e, r, inside, depth) && Node(r.value, path[1..], o)
    ensures Node(e.value, path[1..], u)
    ensures Writable(p, path, inside, depth) && Written(p, path, u, o, inside, depth)
    decreases |path|, 0
  {
    VerdictMeaning(p, path, inside, depth);
    if Sensitive(p, path, 0, inside) {
      u := e.value;
      SensitiveFirst(p, path, inside, depth);
    } else {
      u := OutputFollows(p, e.value, path[1..], o, NextInside(p, path[0]), depth + 1);
      TailWritable(p, path, inside, depth);
    }
  }

  /** The converse, where no two keys of a mapping share a string form: what may be written is written. */
  lemma {:induction false} WritableIsWritten(
    p: Policy, v: Value, path: seq<PathStep>, u: Value, inside: bool, depth: nat) returns (o: Value)
    requires Node(v, path, u) && Unambiguous(v, path) && Writable(p, path, inside, depth)
    ensures Node(SanitizeValue(p, v, inside, depth), path, o) && Written(p, path, u, o, inside, depth)
    decreases |path|, 2
  {
    if path == [] {
      o := SanitizeValue(p, v, inside, depth);
    } else {
      match v
      case Mapping(_, entries) => o := WritableEntries(p, v.dict, entries, path, u, inside, depth);
      case List(items) => o := WritableItems(p, items, path, u, inside, depth);
      case Tuple(items) => o := WritableItems(p, items, path, u, inside, depth);
    }
  }

  lemma {:induction false} WritableItems(
    p: Policy, items: seq<Value>, path: seq<PathStep>, u: Value, inside: bool, depth: nat) returns (o: Value)
    requires path != [] && path[0].AtIndex? && path[0].i < |items|
    requires Node(items[path[0].i], path[1..], u) && Unambiguous(items[path[0].i], path[1..])
    requires Writable(p, path, inside, depth)
    ensures Node(SanitizeItems(p, items, depth + 1)[path[0].i], path[1..], o)
    ensures Written(p, path, u, o, inside, depth)
    decreases |path|, 1
  {
    TailWritable(p, path, inside, depth);
    o := WritableIsWritten(p, items[path[0].i], path[1..], u, false, depth + 1);
    SanitizeItemsAt(p, items, depth + 1, path[0].i);
  }

  lemma {:induction false} WritableEntries(
    p: Policy, dict: bool, entries: seq<Entry>, path: seq<PathStep>, u: Value, inside: bool, depth: nat)
    returns (o: Value)
    requires path != [] && Node(Mapping(dict, entries), path, u) && Unambiguous(Mapping(dict, entries), path)
    requires Writable(p, path, inside, depth)
    ensures Node(Mapping(true, SanitizeFrom(p, [], entries, inside, depth)), path, o)
    ensures Written(p, path, u, o, inside, depth)
    decreases |path|, 1
  {
    var i :| 0 <= i < |entries| && entries[i].key.text == path[0].text && Node(entries[i].value, path[1..], u);
    var r: Entry;
    r, o := WritableEntry(p, entries[i], path, u, inside, depth);
    EntryWritten(p, [], entries, inside, depth, i, r);
  }

  lemma {:induction false} WritableEntry(
    p: Policy, e: Entry, path: seq<PathStep>, u: Value, inside: bool, depth: nat) returns (r: Entry, o: Value)
    requires path != [] && path[0] == AtKey(e.key.text) && Writable(p, path, inside, depth)
    requires Node(e.value, path[1..], u) && Unambiguous(e.value, path[1..])
    ensures Becomes(p, e, r, inside, depth) && Node(r.value, path[1..], o)
    ensures Written(p, path, u, o, inside, depth)
    decreases |path|, 0
  {
    VerdictMeaning(p, path, inside, depth);
    assert Listed(p, path, 0, inside, depth);
    if Sensitive(p, path, 0, inside) {
      SensitiveFirst(p, path, inside, depth);
      o := RedactedText(p, e.value);
      r := Entry(Key(0, e.key.text), o);
    } else {
      TailWritable(p, path, inside, depth);
      var next := NextInside(p, path[0]);
      o := WritableIsWritten(p, e.value, path[1..], u, next, depth + 1);
      r := Entry(Key(0, e.key.text), SanitizeValue(p, e.value, next, depth + 1));
    }
  }

  // ---------------------------------------------------------------- events

  /**
   A redacted event holds nothing beneath a sensitive key, in drop mode not even the key, and for the value of such a
   key only the mask or its hash; and every key it holds is in each allowlist that applies to its place.
   */
  lemma EventFollowsPolicy(p: Policy, data: seq<Entry>, path: seq<PathStep>, o: Value, i: nat)
    requires Node(Mapping(true, SanitizeEvent(p, data)), path, o) && i < |path|
    ensures Sensitive(p, path, i, false) ==>
              && i == |path| - 1 && !p.mode.Drop?
              && (p.mode.Mask? ==> o == Str(p.maskText))
              && (p.mode.Hash? ==> exists u :: Node(Mapping(true, data), path, u) && o == Str(p.hash(u)))
    ensures Listed(p, path, i, false, 0)
  {
    var u := OutputFollows(p, Mapping(true, data), path, o, false, 0);
  }

  /** A path of an event without a sensitive key holds in the output the scalar the input holds there, or the cut. */
  lemma PlainPathCopied(p: Policy, data: seq<Entry>, path: seq<PathStep>, s: Value)
    requires path != [] && PlainBefore(p, path, |path|, false) && !IsContainer(s)
    requires Unambiguous(Mapping(true, data), path)
    ensures Node(Mapping(true, SanitizeEvent(p, data)), path, s) <==>
            && |path| <= 33 && AllListed(p, path, false, 0)
            && (Node(Mapping(true, data), path, s)
                || (|path| == 33 && s == Str(p.maskText)
                    && exists u :: IsContainer(u) && Node(Mapping(true, data), path, u)))
  {
    var v := Mapping(true, data);
    if Node(Mapping(true, SanitizeEvent(p, data)), path, s) {
      var u := OutputFollows(p, v, path, s, false, 0);
    }
    if |path| <= 33 && AllListed(p, path, false, 0) {
      if Node(v, path, s) {
        var o := WritableIsWritten(p, v, path, s, false, 0);
      } else if |path| == 33 && s == Str(p.maskText) && exists u :: IsContainer(u) && Node(v, path, u) {
        var u :| IsContainer(u) && Node(v, path, u);
        var o := WritableIsWritten(p, v, path, u, false, 0);
      }
    }
  }

  /** At a path whose last key alone is sensitive stands the replacement of what the input holds, unless dropped. */
  lemma SensitivePathReplaced(p: Policy, data: seq<Entry>, path: seq<PathStep>, u: Value)
    requires EndsSensitive(p, path, false) && Node(Mapping(true, data), path, u)
    requires Unambiguous(Mapping(true, data), path)
    ensures Node(Mapping(true, SanitizeEvent(p, data)), path, Str(if p.mode.Hash? then p.hash(u) else p.maskText)) <==>
            |path| <= 33 && AllListed(p, path, false, 0) && !p.mode.Drop?
  {
    var s := Str(if p.mode.Hash? then p.hash(u) else p.maskText);
    if Node(Mapping(true, SanitizeEvent(p, data)), path, s) {
      var w := OutputFollows(p, Mapping(true, data), path, s, false, 0);
      assert Sensitive(p, path, |path| - 1, false);
    } else if |path| <= 33 && AllListed(p, path, false, 0) && !p.mode.Drop? {
      var o := WritableIsWritten(p, Mapping(true, data), path, u, false, 0);
    }
  }

  // ---------------------------------------------------------------- log records

  /**
   In a redacted record every field but `event` is as in an event without an event allowlist; so is `event`, unless it
   is a dictionary and there is such a list: then, if it was not left out, it is the redacted event.
   */
  lemma RecordParts(p: Policy, data: seq<Entry>, text: string)
    ensures var open := SanitizeEvent(p.(eventAllowlist := Everything), data);
            && (HasKey(SanitizeRecord(p, data), text) <==> HasKey(open, text))
            && At(SanitizeRecord(p, data), text) ==
               var event := Find(data, Key(0, "event"));
               if text == "event" && p.eventAllowlist.Only? && event.Mapping? && event.dict && HasKey(open, "event")
               then Mapping(true, SanitizeEvent(p, event.entries))
               else At(open, text)
  {
    var open := SanitizeEvent(p.(eventAllowlist := Everything), data);
    if WritesBack(p, data) && HasKey(open, "event") {
      var event := Mapping(true, SanitizeEvent(p, Find(data, Key(0, "event")).entries));
      StoreAt(open, "event", event);
      StoreKeys(open, "event", event);
    }
  }
}
