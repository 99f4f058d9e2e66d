/**
 * `pysnow.response.Response`: the streaming consumer of a response body.
 * The body arrives as the `(prefix, event, value)` events of a JSON
 * tokenizer; the consumer recognises a `result` array, a `result`
 * object or an `error` object at the root, builds the records with an
 * object builder, yields them and counts them. The accessors `first`,
 * `one` and their `_or_none` forms sit on the resulting trace.
 */
module Response {
  import opened Options
  import opened Strings
  import opened Dicts
  import opened Json
  import opened Values
  import Exceptions

  // ---- Tokenizer events ----

  datatype EventKind =
    | StartMap
    | EndMap
    | StartArray
    | EndArray
    | MapKey(key: string)
    | Scalar(v: Json)

  datatype Event = Event(prefix: string, kind: EventKind)

  // ---- The object builder ----

  /**
   * An open container and the key it was stored under in its parent
   * (`""` when the parent is a list or the root).
   */
  datatype Frame =
    | MapFrame(entries: Dict<Json>, at: string)
    | ArrayFrame(items: seq<Json>, at: string)

  /**
   * The object builder: the value stored at the root so far, the stack of
   * open containers, the one `key` attribute shared by every open map, and
   * whether the root setter itself has been popped off the stack (after
   * which any use of the innermost container raises `IndexError`).
   *
   * The builder attaches a container to its parent when it opens it and
   * fills it in place afterwards; here a container is attached when it is
   * closed, and `Flush` closes whatever is still open. Nothing touches a
   * parent while a child is open, so both orders produce the same value.
   */
  datatype ObjectBuilder = ObjectBuilder(root: Option<Json>, stack: seq<Frame>, key: Option<string>, lost: bool)

  const NewBuilder := ObjectBuilder(None, [], None, false)

  function Content(f: Frame): Json {
    match f
    case MapFrame(entries, _) => JObj(entries)
    case ArrayFrame(items, _) => JArr(items)
  }

  /** `containers[-1](v)`: store `v` in the innermost open container, or at the root. */
  function Attach(b: ObjectBuilder, key: string, v: Json): (r: ObjectBuilder)
    ensures r.key == b.key && r.lost == b.lost && |r.stack| == |b.stack|
    ensures |b.stack| == 0 ==> r.root == Some(v)
    ensures |b.stack| > 0 ==> r.root == b.root && r.stack[..|b.stack| - 1] == b.stack[..|b.stack| - 1]
  {
    if |b.stack| == 0 then b.(root := Some(v))
    else
      var n := |b.stack| - 1;
      match b.stack[n]
      case ArrayFrame(items, at) => b.(stack := b.stack[..n] + [ArrayFrame(items + [v], at)])
      case MapFrame(entries, at) => b.(stack := b.stack[..n] + [MapFrame(Put(entries, key, v), at)])
  }

  /** The key the innermost container stores under: a map reads the shared `key`, which must have been set. */
  function Slot(b: ObjectBuilder): (r: Result<string>)
    ensures r.Err? <==> |b.stack| > 0 && b.stack[|b.stack| - 1].MapFrame? && b.key.None?
    ensures r.Err? ==> r.error == AttributeError
  {
    if |b.stack| > 0 && b.stack[|b.stack| - 1].MapFrame? then
      if b.key.Some? then Ok(b.key.value) else Err(AttributeError)
    else Ok("")
  }

  /** Close the innermost container, storing it in its parent. */
  function Close(b: ObjectBuilder): (r: ObjectBuilder)
    requires |b.stack| > 0
    ensures |r.stack| == |b.stack| - 1 && r.key == b.key && r.lost == b.lost
  {
    var n := |b.stack| - 1;
    Attach(b.(stack := b.stack[..n]), b.stack[n].at, Content(b.stack[n]))
  }

  /** Close every open container. */
  function Flush(b: ObjectBuilder): (r: ObjectBuilder)
    ensures |r.stack| == 0 && r.lost == b.lost
    ensures |b.stack| == 0 ==> r == b
    decreases |b.stack|
  {
    if |b.stack| == 0 then b else Flush(Close(b))
  }

  /** `builder.value`: what the root holds once open containers are accounted for. */
  function BuiltValue(b: ObjectBuilder): (r: Result<Json>)
    ensures r.Err? <==> Flush(b).root.None?
    ensures r.Err? ==> r.error == AttributeError
  {
    match Flush(b).root
    case Some(v) => Ok(v)
    case None => Err(AttributeError)
  }

  /** `builder.event(event, value)`. */
  function Feed(b: ObjectBuilder, kind: EventKind): (r: Result<ObjectBuilder>)
    ensures b.lost && !kind.MapKey? ==> r == Err(IndexError)
    ensures kind.MapKey? ==> r == Ok(b.(key := Some(kind.key)))
    ensures r.Ok? && !kind.MapKey? ==> r.value.key == b.key
    ensures r.Err? ==> r.error == IndexError || r.error == AttributeError
  {
    match kind
    case MapKey(k) => Ok(b.(key := Some(k)))
    case EndMap => Pop(b)
    case EndArray => Pop(b)
    case StartMap =>
      if b.lost then Err(IndexError)
      else
        var at :- Slot(b);
        Ok(b.(stack := b.stack + [MapFrame([], at)]))
    case StartArray =>
      if b.lost then Err(IndexError)
      else
        var at :- Slot(b);
        Ok(b.(stack := b.stack + [ArrayFrame([], at)]))
    case Scalar(v) =>
      if b.lost then Err(IndexError)
      else
        var at :- Slot(b);
        Ok(Attach(b, at, v))
  }

  /** `containers.pop()`: with nothing open it removes the root setter itself. */
  function Pop(b: ObjectBuilder): (r: Result<ObjectBuilder>)
    ensures r.Err? <==> b.lost
    ensures r.Ok? && |b.stack| == 0 ==> r.value == b.(lost := true)
    ensures r.Ok? && |b.stack| > 0 ==> r.value == Close(b)
  {
    if b.lost then Err(IndexError)
    else if |b.stack| == 0 then Ok(b.(lost := true))
    else Ok(Close(b))
  }

  /** Feed a whole sequence of events, stopping at the first error. */
  function FeedAll(b: ObjectBuilder, events: seq<Event>): Result<ObjectBuilder>
    decreases |events|
  {
    if |events| == 0 then Ok(b)
    else
      var b' :- Feed(b, events[0].kind);
      FeedAll(b', events[1..])
  }

  function FeedThen(r: Result<ObjectBuilder>, events: seq<Event>): Result<ObjectBuilder> {
    match r
    case Ok(b) => FeedAll(b, events)
    case Err(e) => Err(e)
  }

  lemma {:induction false} FeedAllConcat(b: ObjectBuilder, xs: seq<Event>, ys: seq<Event>)
    ensures FeedAll(b, xs + ys) == FeedThen(FeedAll(b, xs), ys)
    decreases |xs|
  {
    if |xs| > 0 {
      assert (xs + ys)[0] == xs[0];
      assert (xs + ys)[1..] == xs[1..] + ys;
      match Feed(b, xs[0].kind)
      case Ok(b') => FeedAllConcat(b', xs[1..], ys);
      case Err(_) =>
    } else {
      assert xs + ys == ys;
    }
  }

  // ---- The tokenizer's events for a JSON value (reference encoder) ----

  /** The prefix of a position: the keys leading to it, with `item` for list elements, joined by dots. */
  function Prefix(path: seq<string>): string {
    Join(".", path)
  }

  /** Every object's keys are distinct, as in a decoded document. */
  predicate UniqueKeys(j: Json) {
    match j
    case JObj(entries) => Distinct(entries) && forall i :: 0 <= i < |entries| ==> UniqueKeys(entries[i].1)
    case JArr(items) => forall i :: 0 <= i < |items| ==> UniqueKeys(items[i])
    case _ => true
  }

  /** The events the tokenizer reports for `j` at position `path`. */
  function Encode(j: Json, path: seq<string>): seq<Event>
    decreases j, 1
  {
    match j
    case JObj(entries) => [Event(Prefix(path), StartMap)] + EncodeEntries(j, 0, path) + [Event(Prefix(path), EndMap)]
    case JArr(items) => [Event(Prefix(path), StartArray)] + EncodeItems(j, 0, path) + [Event(Prefix(path), EndArray)]
    case _ => [Event(Prefix(path), Scalar(j))]
  }

  /** The events for the members of object `j` from index `i` on: each key, then its value. */
  function EncodeEntries(j: Json, i: nat, path: seq<string>): seq<Event>
    requires j.JObj? && i <= |j.entries|
    decreases j, 0, |j.entries| - i
  {
    if i == |j.entries| then []
    else
      var (k, v) := j.entries[i];
      [Event(Prefix(path), MapKey(k))] + Encode(v, path + [k]) + EncodeEntries(j, i + 1, path)
  }

  /** The events for the elements of list `j` from index `i` on. */
  function EncodeItems(j: Json, i: nat, path: seq<string>): seq<Event>
    requires j.JArr? && i <= |j.items|
    decreases j, 0, |j.items| - i
  {
    if i == |j.items| then []
    else Encode(j.items[i], path + ["item"]) + EncodeItems(j, i + 1, path)
  }

  // ---- The builder rebuilds what the tokenizer took apart ----

  /** Two builder states that differ at most in the shared `key`. */
  predicate SameBarKey(x: ObjectBuilder, y: ObjectBuilder) {
    x.root == y.root && x.stack == y.stack && x.lost == y.lost
  }

  lemma TakeSnoc<T>(s: seq<T>, i: nat)
    requires i < |s|
    ensures s[..i] + [s[i]] == s[..i + 1]
  {
  }

  /** The key of entry `i` does not occur among the entries before it. */
  lemma FreshKey(entries: Dict<Json>, i: nat)
    requires Distinct(entries) && i < |entries|
    ensures !HasKey(entries[..i], entries[i].0)
  {
    var ks := Keys(entries[..i]);
    forall m | 0 <= m < |ks|
      ensures ks[m] != entries[i].0
    {
      assert ks[m] == entries[m].0 == Keys(entries)[m];
      assert entries[i].0 == Keys(entries)[i];
    }
  }

  /**
   * Feeding the events of a value to a builder whose innermost container
   * can take it stores exactly that value there.
   */
  lemma {:induction false} FeedValue(b: ObjectBuilder, j: Json, path: seq<string>)
    requires !b.lost && Slot(b).Ok? && UniqueKeys(j)
    ensures FeedAll(b, Encode(j, path)).Ok?
    ensures SameBarKey(FeedAll(b, Encode(j, path)).value, Attach(b, Slot(b).value, j))
    decreases j, 2
  {
    match j
    case JObj(_) => FeedObject(b, j, path);
    case JArr(_) => FeedArray(b, j, path);
    case _ =>
      assert Encode(j, path) == [Event(Prefix(path), Scalar(j))];
      assert FeedAll(b, Encode(j, path)) == Feed(b, Scalar(j));
  }

  /** The three pieces of a container's events, fed one after the other. */
  lemma FeedThree(b: ObjectBuilder, first: Event, middle: seq<Event>, last: Event)
    ensures FeedAll(b, [first] + middle + [last]) == FeedThen(FeedThen(Feed(b, first.kind), middle), [last])
  {
    FeedAllConcat(b, [first], middle);
    FeedAllConcat(b, [first] + middle, [last]);
    match Feed(b, first.kind)
    case Ok(b1) => assert FeedAll(b, [first]) == FeedAll(b1, []);
    case Err(_) =>
  }

  lemma {:induction false} FeedObject(b: ObjectBuilder, j: Json, path: seq<string>)
    requires j.JObj? && !b.lost && Slot(b).Ok? && UniqueKeys(j)
    ensures FeedAll(b, Encode(j, path)).Ok?
    ensures SameBarKey(FeedAll(b, Encode(j, path)).value, Attach(b, Slot(b).value, j))
    decreases j, 1
  {
    var p := Prefix(path);
    var at := Slot(b).value;
    var started := b.(stack := b.stack + [MapFrame([], at)]);
    assert Feed(b, StartMap) == Ok(started);
    assert j.entries[..0] == [];
    FeedEntries(started, j, 0, path);
    var filled := FeedAll(started, EncodeEntries(j, 0, path)).value;
    assert (b.stack + [MapFrame([], at)])[..|b.stack|] == b.stack;
    assert filled.stack == b.stack + [MapFrame(j.entries, at)];
    FeedThree(b, Event(p, StartMap), EncodeEntries(j, 0, path), Event(p, EndMap));
    assert FeedAll(filled, [Event(p, EndMap)]) == Ok(Close(filled));
    assert filled.stack[..|b.stack|] == b.stack;
  }

  lemma {:induction false} FeedArray(b: ObjectBuilder, j: Json, path: seq<string>)
    requires j.JArr? && !b.lost && Slot(b).Ok? && UniqueKeys(j)
    ensures FeedAll(b, Encode(j, path)).Ok?
    ensures SameBarKey(FeedAll(b, Encode(j, path)).value, Attach(b, Slot(b).value, j))
    decreases j, 1
  {
    var p := Prefix(path);
    var at := Slot(b).value;
    var started := b.(stack := b.stack + [ArrayFrame([], at)]);
    assert Feed(b, StartArray) == Ok(started);
    assert j.items[..0] == [];
    FeedItems(started, j, 0, path);
    var filled := FeedAll(started, EncodeItems(j, 0, path)).value;
    assert (b.stack + [ArrayFrame([], at)])[..|b.stack|] == b.stack;
    assert filled.stack == b.stack + [ArrayFrame(j.items, at)];
    FeedThree(b, Event(p, StartArray), EncodeItems(j, 0, path), Event(p, EndArray));
    assert FeedAll(filled, [Event(p, EndArray)]) == Ok(Close(filled));
    assert filled.stack[..|b.stack|] == b.stack;
  }

  /** Feeding the members from index `i` on completes the open map. */
  lemma {:induction false} FeedEntries(b: ObjectBuilder, j: Json, i: nat, path: seq<string>)
    requires j.JObj? && i <= |j.entries| && UniqueKeys(j)
    requires !b.lost && |b.stack| > 0
    requires b.stack[|b.stack| - 1] == MapFrame(j.entries[..i], b.stack[|b.stack| - 1].at)
    ensures FeedAll(b, EncodeEntries(j, i, path)).Ok?
    ensures var r := FeedAll(b, EncodeEntries(j, i, path)).value;
      !r.lost && r.root == b.root
      && r.stack == b.stack[..|b.stack| - 1] + [MapFrame(j.entries, b.stack[|b.stack| - 1].at)]
    decreases j, 0, |j.entries| - i
  {
    if i == |j.entries| {
      LastFrame(b.stack, j.entries);
    } else {
      var k := j.entries[i].0;
      var v := j.entries[i].1;
      var keyed := b.(key := Some(k));
      assert UniqueKeys(v);
      FeedValue(keyed, v, path + [k]);
      var stored := FeedAll(keyed, Encode(v, path + [k])).value;
      StoredEntry(b, j, i, stored);
      FeedEntries(stored, j, i + 1, path);
      EntryFeeds(b, j, i, path);
    }
  }

  /** A stack whose top map holds all the members is that stack. */
  lemma LastFrame(stack: seq<Frame>, entries: Dict<Json>)
    requires |stack| > 0 && stack[|stack| - 1] == MapFrame(entries[..|entries|], stack[|stack| - 1].at)
    ensures stack == stack[..|stack| - 1] + [MapFrame(entries, stack[|stack| - 1].at)]
  {
    assert entries[..|entries|] == entries;
    assert stack == stack[..|stack| - 1] + [stack[|stack| - 1]];
  }

  /** Member `i` lands in the open map, which then holds the members up to it. */
  lemma StoredEntry(b: ObjectBuilder, j: Json, i: nat, stored: ObjectBuilder)
    requires j.JObj? && i < |j.entries| && Distinct(j.entries)
    requires !b.lost && |b.stack| > 0
    requires b.stack[|b.stack| - 1] == MapFrame(j.entries[..i], b.stack[|b.stack| - 1].at)
    requires var keyed := b.(key := Some(j.entries[i].0));
      SameBarKey(stored, Attach(keyed, j.entries[i].0, j.entries[i].1))
    ensures !stored.lost && stored.root == b.root
    ensures stored.stack == b.stack[..|b.stack| - 1] + [MapFrame(j.entries[..i + 1], b.stack[|b.stack| - 1].at)]
  {
    FreshKey(j.entries, i);
    PutFresh(j.entries[..i], j.entries[i].0, j.entries[i].1);
    TakeSnoc(j.entries, i);
  }

  /** Feeding the members from `i` on: the key of member `i`, its value, then the rest. */
  lemma EntryFeeds(b: ObjectBuilder, j: Json, i: nat, path: seq<string>)
    requires j.JObj? && i < |j.entries| && |b.stack| > 0 && b.stack[|b.stack| - 1].MapFrame?
    ensures var k := j.entries[i].0;
      FeedAll(b, EncodeEntries(j, i, path))
        == FeedThen(FeedAll(b.(key := Some(k)), Encode(j.entries[i].1, path + [k])), EncodeEntries(j, i + 1, path))
  {
    var k := j.entries[i].0;
    var v := j.entries[i].1;
    var head := Event(Prefix(path), MapKey(k));
    assert EncodeEntries(j, i, path) == [head] + Encode(v, path + [k]) + EncodeEntries(j, i + 1, path);
    FeedAllConcat(b, [head], Encode(v, path + [k]));
    FeedAllConcat(b, [head] + Encode(v, path + [k]), EncodeEntries(j, i + 1, path));
    assert FeedAll(b, [head]) == Ok(b.(key := Some(k)));
  }

  /** Feeding the elements from index `i` on completes the open list. */
  lemma {:induction false} FeedItems(b: ObjectBuilder, j: Json, i: nat, path: seq<string>)
    requires j.JArr? && i <= |j.items| && UniqueKeys(j)
    requires !b.lost && |b.stack| > 0
    requires b.stack[|b.stack| - 1] == ArrayFrame(j.items[..i], b.stack[|b.stack| - 1].at)
    ensures FeedAll(b, EncodeItems(j, i, path)).Ok?
    ensures var r := FeedAll(b, EncodeItems(j, i, path)).value;
      !r.lost && r.root == b.root
      && r.stack == b.stack[..|b.stack| - 1] + [ArrayFrame(j.items, b.stack[|b.stack| - 1].at)]
    decreases j, 0, |j.items| - i
  {
    var n := |b.stack| - 1;
    var at := b.stack[n].at;
    if i == |j.items| {
      assert j.items[..i] == j.items;
      assert b.stack == b.stack[..n] + [b.stack[n]];
    } else {
      var v := j.items[i];
      assert UniqueKeys(v);
      FeedValue(b, v, path + ["item"]);
      var stored := FeedAll(b, Encode(v, path + ["item"])).value;
      TakeSnoc(j.items, i);
      assert stored.stack == b.stack[..n] + [ArrayFrame(j.items[..i + 1], at)];
      assert stored.stack[..n] == b.stack[..n];
      FeedItems(stored, j, i + 1, path);
      FeedAllConcat(b, Encode(v, path + ["item"]), EncodeItems(j, i + 1, path));
    }
  }

  /** A fresh builder fed the events of a document holds that document. */
  lemma BuilderRoundTrip(j: Json, path: seq<string>)
    requires UniqueKeys(j)
    ensures FeedAll(NewBuilder, Encode(j, path)).Ok?
    ensures BuiltValue(FeedAll(NewBuilder, Encode(j, path)).value) == Ok(j)
  {
    FeedValue(NewBuilder, j, path);
  }

  // ---- Where a position's events fall ----

  /** `s.startswith(a + b)` implies `s.startswith(a)`. */
  lemma StartsWithPart(s: string, a: string, b: string)
    requires StartsWith(s, a + b)
    ensures StartsWith(s, a)
  {
    assert s[..|a|] == (a + b)[..|a|];
  }

  lemma PrefixChild(path: seq<string>, k: string)
    requires |path| > 0
    ensures Prefix(path + [k]) == Prefix(path) + "." + k
  {
    JoinSnoc(".", path, k);
  }

  /** Below a non-root position every event reports that position or one under it. */
  lemma {:induction false} EncodeUnder(j: Json, path: seq<string>)
    requires |path| > 0
    ensures forall e | e in Encode(j, path) :: e.prefix == Prefix(path) || StartsWith(e.prefix, Prefix(path) + ".")
    decreases j, 1
  {
    match j
    case JObj(_) => EntriesUnder(j, 0, path);
    case JArr(_) => ItemsUnder(j, 0, path);
    case _ =>
  }

  /** Inside an object the only events at its own position are its keys. */
  lemma {:induction false} EntriesUnder(j: Json, i: nat, path: seq<string>)
    requires j.JObj? && i <= |j.entries| && |path| > 0
    ensures forall e | e in EncodeEntries(j, i, path) ::
      (e.prefix == Prefix(path) && e.kind.MapKey?) || StartsWith(e.prefix, Prefix(path) + ".")
    decreases j, 0, |j.entries| - i
  {
    if i < |j.entries| {
      var k := j.entries[i].0;
      var v := j.entries[i].1;
      EncodeUnder(v, path + [k]);
      EntriesUnder(j, i + 1, path);
      PrefixChild(path, k);
      forall e | e in Encode(v, path + [k])
        ensures StartsWith(e.prefix, Prefix(path) + ".")
      {
        if e.prefix == Prefix(path + [k]) {
          assert e.prefix == (Prefix(path) + ".") + k;
        } else {
          assert e.prefix[..|Prefix(path + [k]) + "."|] == (Prefix(path) + ".") + (k + ".");
          StartsWithPart(e.prefix, Prefix(path) + ".", k + ".");
        }
      }
      assert EncodeEntries(j, i, path) == [Event(Prefix(path), MapKey(k))] + Encode(v, path + [k]) + EncodeEntries(j, i + 1, path);
    }
  }

  /** Inside a list every event lies strictly below the list's position. */
  lemma {:induction false} ItemsUnder(j: Json, i: nat, path: seq<string>)
    requires j.JArr? && i <= |j.items| && |path| > 0
    ensures forall e | e in EncodeItems(j, i, path) :: StartsWith(e.prefix, Prefix(path) + ".")
    decreases j, 0, |j.items| - i
  {
    if i < |j.items| {
      var v := j.items[i];
      EncodeUnder(v, path + ["item"]);
      ItemsUnder(j, i + 1, path);
      PrefixChild(path, "item");
      forall e | e in Encode(v, path + ["item"])
        ensures StartsWith(e.prefix, Prefix(path) + ".")
      {
        if e.prefix == Prefix(path + ["item"]) {
          assert e.prefix == (Prefix(path) + ".") + "item";
        } else {
          assert e.prefix[..|Prefix(path + ["item"]) + "."|] == (Prefix(path) + ".") + ("item" + ".");
          StartsWithPart(e.prefix, Prefix(path) + ".", "item" + ".");
        }
      }
    }
  }

  // ---- The consumer ----

  /** The consumer's locals: the three flags, the builder, `self.count`, what it yielded, and what it raised. */
  datatype Parser = Parser(single: bool, many: bool, error: bool, builder: ObjectBuilder,
                           count: int, records: seq<Json>, raised: Option<Error>)

  /** The state before the first event, with `self.count` as it stands. */
  function Initial(count: int): Parser {
    Parser(false, false, false, NewBuilder, count, [], None)
  }

  /** The events that start a fresh builder: an `error` object, or a `result` object or array. */
  predicate Opens(e: Event) {
    (e.prefix == "error" && e.kind == StartMap)
    || (e.prefix == "result" && (e.kind == StartMap || e.kind == StartArray))
  }

  function Matched(s: Parser, e: Event): (t: Parser)
    ensures !Opens(e) ==> t == s
  {
    if e.prefix == "error" && e.kind == StartMap then s.(error := true, builder := NewBuilder)
    else if e.prefix == "result" && e.kind == StartMap then s.(single := true, builder := NewBuilder)
    else if e.prefix == "result" && e.kind == StartArray then s.(many := true, builder := NewBuilder)
    else s
  }

  /** `builder.event(event, value)` inside the loop; a failure propagates out of the generator. */
  function FeedParser(s: Parser, kind: EventKind): (t: Parser)
    ensures t.single == s.single && t.many == s.many && t.error == s.error
    ensures t.count == s.count && t.records == s.records
    ensures t.raised == s.raised || (t.raised.Some? && StreamError(t.raised.value))
  {
    match Feed(s.builder, kind)
    case Ok(b) => s.(builder := b)
    case Err(x) => s.(raised := Some(x))
  }

  /** The closing event of a record: feed it, count, and yield the built value. */
  function Emit(s: Parser, kind: EventKind): (t: Parser)
    ensures t.single == s.single && t.many == s.many && t.error == s.error
    ensures |s.records| <= |t.records| <= |s.records| + 1 && t.records[..|s.records|] == s.records
    ensures Counted(s, t)
    ensures t.raised == s.raised || (t.raised.Some? && StreamError(t.raised.value))
  {
    match Feed(s.builder, kind)
    case Err(x) => s.(raised := Some(x))
    case Ok(b) =>
      var counted := s.(builder := b, count := s.count + 1);
      match BuiltValue(b)
      case Ok(v) => counted.(records := s.records + [v])
      case Err(x) => counted.(raised := Some(x))
  }

  /** The closing event of the `error` object: raise `ResponseError` built from it, without feeding the event. */
  function RaiseError(s: Parser): (t: Parser)
    ensures t == s.(raised := t.raised)
    ensures t.raised.Some? && StreamError(t.raised.value)
  {
    match BuiltValue(s.builder)
    case Err(x) => s.(raised := Some(x))
    case Ok(v) =>
      match Exceptions.NewResponseError(v)
      case Ok(re) => s.(raised := Some(re))
      case Err(x) => s.(raised := Some(x))
  }

  /** The errors the loop itself can raise. */
  predicate StreamError(x: Error) {
    x == IndexError || x == AttributeError || x == TypeError || x.ResponseError?
  }

  /** `self.count` grew by the number of records yielded, or by one more when reading the last value failed. */
  predicate Counted(s: Parser, t: Parser) {
    t.count - s.count == |t.records| - |s.records|
    || (t.count - s.count == |t.records| - |s.records| + 1 && t.raised == Some(AttributeError))
  }

  /** One event of the loop: the matching step, then the branch of the first flag set. */
  function Step(s: Parser, e: Event): (t: Parser)
    requires s.raised.None?
    ensures (s.single ==> t.single) && (s.many ==> t.many) && (s.error ==> t.error)
    ensures |s.records| <= |t.records| <= |s.records| + 1 && t.records[..|s.records|] == s.records
    ensures |t.records| > |s.records| ==> t.single || t.many
    ensures Counted(s, t)
    ensures t.raised.Some? ==> StreamError(t.raised.value)
  {
    var m := Matched(s, e);
    if m.many then
      if e.prefix == "result.item" && e.kind == EndMap then Emit(m, e.kind)
      else if StartsWith(e.prefix, "result.item") then FeedParser(m, e.kind)
      else m
    else if m.single then
      if e.prefix == "result" && e.kind == EndMap then Emit(m, e.kind)
      else if StartsWith(e.prefix, "result") then FeedParser(m, e.kind)
      else m
    else if m.error then
      if e.prefix == "error" && e.kind == EndMap then RaiseError(m)
      else if StartsWith(e.prefix, "error") then FeedParser(m, e.kind)
      else m
    else m
  }

  /** The loop over the events, stopping at the first exception. */
  function Run(s: Parser, events: seq<Event>): (t: Parser)
    ensures s.raised.Some? ==> t == s
    ensures (s.single ==> t.single) && (s.many ==> t.many) && (s.error ==> t.error)
    ensures |s.records| <= |t.records| && t.records[..|s.records|] == s.records
    ensures |t.records| > |s.records| ==> t.single || t.many
    ensures s.raised.None? ==> Counted(s, t)
    ensures s.raised.None? && t.raised.Some? ==> StreamError(t.raised.value)
    decreases |events|
  {
    if |events| == 0 || s.raised.Some? then s
    else Run(Step(s, events[0]), events[1..])
  }

  lemma {:induction false} RunConcat(s: Parser, xs: seq<Event>, ys: seq<Event>)
    ensures Run(s, xs + ys) == Run(Run(s, xs), ys)
    decreases |xs|
  {
    if |xs| > 0 && s.raised.None? {
      assert (xs + ys)[0] == xs[0];
      assert (xs + ys)[1..] == xs[1..] + ys;
      RunConcat(Step(s, xs[0]), xs[1..], ys);
    } else if |xs| == 0 {
      assert xs + ys == ys;
    }
  }

  /** How the generator ends. */
  datatype End = Finished | Raised(error: Error)

  /** What consuming the generator produces: the records in order, the final count, and how it ended. */
  datatype Trace = Trace(records: seq<Json>, count: int, end: End)

  /**
   * `_parse_response`, consumed to the end. Running out of events with
   * none of the three keys seen raises `MissingResult`; otherwise the
   * generator simply returns.
   */
  function Parse(events: seq<Event>, count: int): (r: Trace)
    ensures r.count - count == |r.records|
            || (r.count - count == |r.records| + 1 && r.end == Raised(AttributeError))
    ensures r.end.Raised? ==> StreamError(r.end.error) || (r.end.error == MissingResult && r.records == [] && r.count == count)
  {
    var s := Run(Initial(count), events);
    var end :=
      if s.raised.Some? then Raised(s.raised.value)
      else if !(s.single || s.many || s.error) then Raised(MissingResult)
      else Finished;
    Trace(s.records, s.count, end)
  }

  // ---- The response as a whole ----

  /** `raise_for_status()`: a client (4xx) or server (5xx) status raises. */
  predicate RaisesForStatus(status: int) {
    400 <= status < 600
  }

  /** The one record a successful DELETE stands for. */
  const Deleted: Json := JObj([("status", JStr("record deleted"))])

  /**
   * `all()`: a DELETE answered with 204 yields the deletion record without
   * reading the body; otherwise the status is checked, then the body parsed.
   */
  function All(verb: string, status: int, events: seq<Event>, count: int): (r: Trace)
    ensures verb == "DELETE" && status == 204 ==> r == Trace([Deleted], count, Finished)
    ensures !(verb == "DELETE" && status == 204) && RaisesForStatus(status) ==> r == Trace([], count, Raised(HttpError(status)))
    ensures !(verb == "DELETE" && status == 204) && !RaisesForStatus(status) ==> r == Parse(events, count)
  {
    if verb == "DELETE" && status == 204 then Trace([Deleted], count, Finished)
    else if RaisesForStatus(status) then Trace([], count, Raised(HttpError(status)))
    else Parse(events, count)
  }

  const NoRecordsMessage := "No records found"
  const MultipleMessage := "Expected single-record result, got multiple"

  /** `first()`: the first record, or the error raised before one appeared, or `NoResults`. */
  function First(t: Trace): (r: Result<Json>)
    ensures |t.records| > 0 ==> r == Ok(t.records[0])
    ensures |t.records| == 0 && t.end.Raised? ==> r == Err(t.end.error)
    ensures |t.records| == 0 && t.end.Finished? ==> r == Err(NoResults(NoRecordsMessage))
  {
    if |t.records| > 0 then Ok(t.records[0])
    else if t.end.Raised? then Err(t.end.error)
    else Err(NoResults(NoRecordsMessage))
  }

  /** `one()`: a second record raises `MultipleResults`; an error after the only record still propagates. */
  function One(t: Trace): (r: Result<Json>)
    ensures r.Ok? <==> |t.records| == 1 && t.end.Finished?
    ensures r.Ok? ==> r.value == t.records[0]
    ensures |t.records| >= 2 ==> r == Err(MultipleResults(MultipleMessage))
    ensures |t.records| == 0 && t.end.Finished? ==> r == Err(NoResults(NoRecordsMessage))
    ensures |t.records| <= 1 && t.end.Raised? ==> r == Err(t.end.error)
  {
    if |t.records| == 0 then First(t)
    else if |t.records| >= 2 then Err(MultipleResults(MultipleMessage))
    else if t.end.Raised? then Err(t.end.error)
    else Ok(t.records[0])
  }

  /** `except NoResults: return None`: only that one exception becomes `None`. */
  function OrNone(r: Result<Json>): (o: Result<Option<Json>>)
    ensures o == Ok(None) <==> r.Err? && r.error.NoResults?
    ensures r.Ok? ==> o == Ok(Some(r.value))
    ensures r.Err? && !r.error.NoResults? ==> o == Err(r.error)
  {
    match r
    case Ok(v) => Ok(Some(v))
    case Err(x) => if x.NoResults? then Ok(None) else Err(x)
  }

  function FirstOrNone(t: Trace): (r: Result<Option<Json>>)
    ensures r == OrNone(First(t))
    ensures r == Ok(None) <==> |t.records| == 0 && (t.end.Finished? || t.end.error.NoResults?)
  {
    OrNone(First(t))
  }

  function OneOrNone(t: Trace): (r: Result<Option<Json>>)
    ensures r == OrNone(One(t))
    ensures |t.records| >= 2 ==> r == Err(MultipleResults(MultipleMessage))
    ensures r == Ok(None) <==> (|t.records| == 0 && t.end.Finished?) || (|t.records| <= 1 && t.end.Raised? && t.end.error.NoResults?)
  {
    OrNone(One(t))
  }

  /** The `count` setter: an `int` that is not a `bool`, else `TypeError`. */
  function SetCount(v: Value): (r: Result<int>)
    ensures r.Ok? <==> IsStrictInt(v)
    ensures r.Ok? ==> r.value == v.i
    ensures r.Err? ==> r.error == TypeError
  {
    if IsStrictInt(v) then Ok(v.i) else Err(TypeError)
  }

  // ---- What the consumer makes of well-formed bodies ----

  /** The position whose events the active branch builds from. */
  function Root(s: Parser): string {
    if s.many then "result.item" else if s.single then "result" else "error"
  }

  /** The active branch hands event `e` to the builder and does nothing else. */
  predicate FedBy(s: Parser, e: Event) {
    (s.many || s.single || s.error) && !Opens(e)
    && StartsWith(e.prefix, Root(s)) && !(e.prefix == Root(s) && e.kind == EndMap)
  }

  lemma {:induction false} RunFeeds(s: Parser, events: seq<Event>)
    requires s.raised.None? && FeedAll(s.builder, events).Ok?
    requires forall e | e in events :: FedBy(s, e)
    ensures Run(s, events) == s.(builder := FeedAll(s.builder, events).value)
    decreases |events|
  {
    if |events| > 0 {
      var b1 := Feed(s.builder, events[0].kind).value;
      assert events[0] in events;
      assert Step(s, events[0]) == s.(builder := b1);
      assert forall e | e in events[1..] :: e in events;
      RunFeeds(s.(builder := b1), events[1..]);
    }
  }

  /** A key of the record being built, or any event below it, goes to the builder. */
  lemma FedUnder(s: Parser, e: Event)
    requires s.many || s.single || s.error
    requires (e.prefix == Root(s) && e.kind.MapKey?) || StartsWith(e.prefix, Root(s) + ".")
    ensures FedBy(s, e)
  {
    if !(e.prefix == Root(s) && e.kind.MapKey?) {
      StartsWithPart(e.prefix, Root(s), ".");
      NoDot(e.prefix, Root(s));
    }
  }

  /** The members of the record being built all land in its open map. */
  lemma FillRecord(s: Parser, o: Json, path: seq<string>)
    requires s.many || s.single || s.error
    requires |path| > 0 && Root(s) == Prefix(path)
    requires s.raised.None? && o.JObj? && UniqueKeys(o)
    requires s.builder.stack == [MapFrame([], "")] && !s.builder.lost
    ensures var t := Run(s, EncodeEntries(o, 0, path));
      t == s.(builder := t.builder) && t.builder.stack == [MapFrame(o.entries, "")]
      && !t.builder.lost && t.builder.root == s.builder.root
  {
    EntriesUnder(o, 0, path);
    forall e | e in EncodeEntries(o, 0, path)
      ensures FedBy(s, e)
    {
      FedUnder(s, e);
    }
    assert o.entries[..0] == [];
    FeedEntries(s.builder, o, 0, path);
    RunFeeds(s, EncodeEntries(o, 0, path));
  }

  /** Closing the open record map stores it at the root, where `builder.value` reads it. */
  lemma CloseRecord(b: ObjectBuilder, o: Json)
    requires o.JObj? && b.stack == [MapFrame(o.entries, "")] && !b.lost
    ensures Feed(b, EndMap).Ok? && Feed(b, EndMap).value.stack == [] && !Feed(b, EndMap).value.lost
    ensures BuiltValue(Feed(b, EndMap).value) == Ok(o)
    ensures BuiltValue(b) == Ok(o)
  {
    assert Close(b).root == Some(o);
    assert Flush(b) == Flush(Close(b));
  }

  /** One element of the `result` array: its members are fed, then it is counted and yielded. */
  lemma {:induction false} ManyItem(s: Parser, o: Json)
    requires s.many && s.raised.None? && s.builder.stack == [] && !s.builder.lost
    requires o.JObj? && UniqueKeys(o)
    ensures var t := Run(s, Encode(o, ["result", "item"]));
      t == s.(builder := t.builder, count := s.count + 1, records := s.records + [o])
      && t.builder.stack == [] && !t.builder.lost
  {
    var path := ["result", "item"];
    var middle := EncodeEntries(o, 0, path);
    ItemEvents(o);
    ItemOpening(s);
    var s1 := s.(builder := s.builder.(stack := [MapFrame([], "")]));
    FillRecord(s1, o, path);
    var s2 := Run(s1, middle);
    ItemClosing(s2, o);
    RunThree(s, [Event("result.item", StartMap)], middle, [Event("result.item", EndMap)]);
  }

  /** The events of one element of the `result` array. */
  lemma ItemEvents(o: Json)
    requires o.JObj?
    ensures Encode(o, ["result", "item"])
            == [Event("result.item", StartMap)] + EncodeEntries(o, 0, ["result", "item"]) + [Event("result.item", EndMap)]
  {
    assert Prefix(["result", "item"]) == "result.item" by {
      assert Join(".", ["result", "item"]) == "result" + "." + Join(".", ["item"]);
    }
  }

  /** An element of the array opens an empty map in the builder. */
  lemma ItemOpening(s: Parser)
    requires s.many && s.raised.None? && s.builder.stack == [] && !s.builder.lost
    ensures Run(s, [Event("result.item", StartMap)]) == s.(builder := s.builder.(stack := [MapFrame([], "")]))
  {
    assert Step(s, Event("result.item", StartMap)) == s.(builder := s.builder.(stack := [MapFrame([], "")]));
  }

  /** The end of an element closes its map, counts it and yields it. */
  lemma ItemClosing(s: Parser, o: Json)
    requires s.many && s.raised.None?
    requires o.JObj? && s.builder.stack == [MapFrame(o.entries, "")] && !s.builder.lost
    ensures var t := Run(s, [Event("result.item", EndMap)]);
      t == s.(builder := t.builder, count := s.count + 1, records := s.records + [o])
      && t.builder.stack == [] && !t.builder.lost
  {
    CloseRecord(s.builder, o);
    var closed := Feed(s.builder, EndMap).value;
    var finish := Event("result.item", EndMap);
    assert Step(s, finish) == s.(builder := closed, count := s.count + 1, records := s.records + [o]);
    assert Run(s, [finish]) == Step(s, finish) by {
      assert [finish][1..] == [];
    }
  }

  /** `t` follows `s` in the array branch after `k` more records `recs`, with the builder idle again. */
  predicate Advanced(s: Parser, t: Parser, k: int, recs: seq<Json>) {
    t.single == s.single && t.many == s.many && t.error == s.error && t.raised == s.raised
    && t.count == s.count + k && t.records == s.records + recs
    && t.builder.stack == [] && !t.builder.lost
  }

  /** Running over the elements from index `i` is running over element `i`, then over the rest. */
  lemma RunItemsSplit(s: Parser, j: Json, i: nat)
    requires j.JArr? && i < |j.items|
    ensures Run(s, EncodeItems(j, i, ["result"]))
            == Run(Run(s, Encode(j.items[i], ["result", "item"])), EncodeItems(j, i + 1, ["result"]))
  {
    assert ["result"] + ["item"] == ["result", "item"];
    assert EncodeItems(j, i, ["result"]) == Encode(j.items[i], ["result", "item"]) + EncodeItems(j, i + 1, ["result"]);
    RunConcat(s, Encode(j.items[i], ["result", "item"]), EncodeItems(j, i + 1, ["result"]));
  }

  /** One element of the array advances the consumer by one record. */
  lemma ItemAdvances(s: Parser, x: Json)
    requires s.many && s.raised.None? && s.builder.stack == [] && !s.builder.lost
    requires x.JObj? && UniqueKeys(x)
    ensures Advanced(s, Run(s, Encode(x, ["result", "item"])), 1, [x])
  {
    ManyItem(s, x);
  }

  lemma AdvancedTwice(s: Parser, s1: Parser, t: Parser, x: Json, recs: seq<Json>, k: int, all: seq<Json>)
    requires Advanced(s, s1, 1, [x]) && Advanced(s1, t, k, recs)
    requires all == [x] + recs
    ensures Advanced(s, t, k + 1, all)
  {
    assert s.records + [x] + recs == s.records + ([x] + recs);
  }

  /** The elements of the `result` array from index `i` on. */
  lemma {:induction false} ManyItems(s: Parser, j: Json, i: nat)
    requires j.JArr? && i <= |j.items| && UniqueKeys(j)
    requires forall m | 0 <= m < |j.items| :: j.items[m].JObj?
    requires s.many && s.raised.None? && s.builder.stack == [] && !s.builder.lost
    ensures Advanced(s, Run(s, EncodeItems(j, i, ["result"])), |j.items| - i, j.items[i..])
    decreases |j.items| - i
  {
    if i == |j.items| {
      assert j.items[i..] == [];
    } else {
      var x := j.items[i];
      assert UniqueKeys(x);
      ItemAdvances(s, x);
      ManyItems(Run(s, Encode(x, ["result", "item"])), j, i + 1);
      ItemsStep(s, j, i);
    }
  }

  /** The elements from `i` on are element `i` and those after it. */
  lemma ItemsFrom(items: seq<Json>, i: nat)
    requires i < |items|
    ensures items[i..] == [items[i]] + items[i + 1..]
  {
  }

  /** Element `i` and then the rest advance the consumer by the elements from `i` on. */
  lemma ItemsStep(s: Parser, j: Json, i: nat)
    requires j.JArr? && i < |j.items|
    requires var s1 := Run(s, Encode(j.items[i], ["result", "item"]));
      Advanced(s, s1, 1, [j.items[i]])
      && Advanced(s1, Run(s1, EncodeItems(j, i + 1, ["result"])), |j.items| - (i + 1), j.items[i + 1..])
    ensures Advanced(s, Run(s, EncodeItems(j, i, ["result"])), |j.items| - i, j.items[i..])
  {
    var x := j.items[i];
    var s1 := Run(s, Encode(x, ["result", "item"]));
    var t := Run(s1, EncodeItems(j, i + 1, ["result"]));
    RunItemsSplit(s, j, i);
    ItemsFrom(j.items, i);
    AdvancedTwice(s, s1, t, x, j.items[i + 1..], |j.items| - (i + 1), j.items[i..]);
  }

  /** The events of a body `{key: v}`, split at the value. */
  lemma BodyEvents(key: string, v: Json)
    ensures Encode(JObj([(key, v)]), [])
            == [Event("", StartMap), Event("", MapKey(key))] + Encode(v, [key]) + [Event("", EndMap)]
  {
    var body := JObj([(key, v)]);
    var p: seq<string> := [];
    assert Prefix(p) == "";
    assert p + [key] == [key];
    var inner := EncodeEntries(body, 0, p);
    assert EncodeEntries(body, 1, p) == [];
    assert inner == [Event("", MapKey(key))] + Encode(v, [key]) + [];
    assert Encode(body, p) == [Event("", StartMap)] + inner + [Event("", EndMap)];
  }

  /**
   * A `result` array of objects: every object is yielded, in order, and
   * counted; an empty array simply yields nothing.
   */
  lemma ParseMany(items: seq<Json>, count: int)
    requires forall m | 0 <= m < |items| :: items[m].JObj? && UniqueKeys(items[m])
    ensures Parse(Encode(JObj([("result", JArr(items))]), []), count) == Trace(items, count + |items|, Finished)
  {
    var arr := JArr(items);
    var opening := [Event("", StartMap), Event("", MapKey("result")), Event("result", StartArray)];
    var closing := [Event("result", EndArray), Event("", EndMap)];
    var middle := EncodeItems(arr, 0, ["result"]);
    ManyEvents(items);
    var s0 := Initial(count);
    var s1 := s0.(many := true);
    ManyOpening(count);
    ManyBody(s1, items);
    var s2 := Run(s1, middle);
    ManyClosing(s2);
    RunThree(s0, opening, middle, closing);
    ParseEnds(Encode(JObj([("result", arr)]), []), count, s2);
  }

  /** Running over three pieces in turn. */
  lemma RunThree(s: Parser, xs: seq<Event>, ys: seq<Event>, zs: seq<Event>)
    ensures Run(s, xs + ys + zs) == Run(Run(Run(s, xs), ys), zs)
  {
    RunConcat(s, xs, ys);
    RunConcat(s, xs + ys, zs);
  }

  /** A consumer that saw one of the keys and raised nothing ends the generator quietly. */
  lemma ParseEnds(events: seq<Event>, count: int, t: Parser)
    requires Run(Initial(count), events) == t
    requires t.raised.None? && (t.single || t.many || t.error)
    ensures Parse(events, count) == Trace(t.records, t.count, Finished)
  {
  }

  /** All the elements of a `result` array of objects, from a consumer that has just seen the array open. */
  lemma ManyBody(s: Parser, items: seq<Json>)
    requires forall m | 0 <= m < |items| :: items[m].JObj? && UniqueKeys(items[m])
    requires s.many && s.raised.None? && s.builder.stack == [] && !s.builder.lost
    ensures Advanced(s, Run(s, EncodeItems(JArr(items), 0, ["result"])), |items|, items)
  {
    ManyItems(s, JArr(items), 0);
    assert items[0..] == items;
  }

  lemma ManyEvents(items: seq<Json>)
    ensures Encode(JObj([("result", JArr(items))]), [])
            == [Event("", StartMap), Event("", MapKey("result")), Event("result", StartArray)]
               + EncodeItems(JArr(items), 0, ["result"])
               + [Event("result", EndArray), Event("", EndMap)]
  {
    assert Prefix(["result"]) == "result";
    BodyEvents("result", JArr(items));
  }

  lemma ManyOpening(count: int)
    ensures Run(Initial(count), [Event("", StartMap), Event("", MapKey("result")), Event("result", StartArray)])
            == Initial(count).(many := true)
  {
  }

  lemma ManyClosing(s: Parser)
    requires s.many && s.raised.None?
    ensures Run(s, [Event("result", EndArray), Event("", EndMap)]) == s
  {
    assert Step(s, Event("result", EndArray)) == s;
  }

  /** A `result` object is yielded once, and the count goes up by one. */
  lemma ParseSingle(o: Json, count: int)
    requires o.JObj? && UniqueKeys(o)
    ensures Parse(Encode(JObj([("result", o)]), []), count) == Trace([o], count + 1, Finished)
  {
    var path := ["result"];
    assert Prefix(path) == "result";
    var opening := [Event("", StartMap), Event("", MapKey("result")), Event("result", StartMap)];
    var closing := [Event("result", EndMap), Event("", EndMap)];
    var middle := EncodeEntries(o, 0, path);
    BodyEvents("result", o);
    var events := Encode(JObj([("result", o)]), []);
    assert events == opening + middle + closing;
    var s0 := Initial(count);
    var s1 := s0.(single := true, builder := NewBuilder.(stack := [MapFrame([], "")]));
    SingleOpening(count);
    FillRecord(s1, o, path);
    var s2 := Run(s1, middle);
    assert s2.records == [] && s2.count == count && s2.single && !s2.many && s2.raised.None?;
    SingleClosing(s2, o);
    RunThree(s0, opening, middle, closing);
    ParseEnds(events, count, Run(s2, closing));
  }

  lemma SingleOpening(count: int)
    ensures Run(Initial(count), [Event("", StartMap), Event("", MapKey("result")), Event("result", StartMap)])
            == Initial(count).(single := true, builder := NewBuilder.(stack := [MapFrame([], "")]))
  {
  }

  /** The end of the `result` object yields it; the end of the body changes nothing. */
  lemma SingleClosing(s: Parser, o: Json)
    requires s.single && !s.many && s.raised.None?
    requires o.JObj? && s.builder.stack == [MapFrame(o.entries, "")] && !s.builder.lost
    ensures var t := Run(s, [Event("result", EndMap), Event("", EndMap)]);
      t.records == s.records + [o] && t.count == s.count + 1 && t.raised.None? && t.single
  {
    CloseRecord(s.builder, o);
    var s3 := Step(s, Event("result", EndMap));
    assert s3 == s.(builder := Feed(s.builder, EndMap).value, count := s.count + 1, records := s.records + [o]);
    assert Step(s3, Event("", EndMap)) == s3;
  }

  /**
   * An `error` object raises `ResponseError` built from the complete
   * object when its closing event arrives, before that event is fed, and
   * nothing is yielded.
   */
  lemma ParseError(eo: Json, count: int)
    requires eo.JObj? && UniqueKeys(eo)
    ensures Parse(Encode(JObj([("error", eo)]), []), count)
            == Trace([], count, Raised(Exceptions.NewResponseError(eo).value))
  {
    var path := ["error"];
    assert Prefix(path) == "error";
    var opening := [Event("", StartMap), Event("", MapKey("error")), Event("error", StartMap)];
    var closing := [Event("error", EndMap), Event("", EndMap)];
    var middle := EncodeEntries(eo, 0, path);
    BodyEvents("error", eo);
    var events := Encode(JObj([("error", eo)]), []);
    assert events == opening + middle + closing;
    var s0 := Initial(count);
    var s1 := s0.(error := true, builder := NewBuilder.(stack := [MapFrame([], "")]));
    ErrorOpening(count);
    FillRecord(s1, eo, path);
    var s2 := Run(s1, middle);
    CloseRecord(s2.builder, eo);
    var s3 := Step(s2, closing[0]);
    assert s3 == s2.(raised := Some(Exceptions.NewResponseError(eo).value));
    assert Run(s2, closing) == s3;
    RunConcat(s0, opening, middle);
    RunConcat(s0, opening + middle, closing);
  }

  lemma ErrorOpening(count: int)
    ensures Run(Initial(count), [Event("", StartMap), Event("", MapKey("error")), Event("error", StartMap)])
            == Initial(count).(error := true, builder := NewBuilder.(stack := [MapFrame([], "")]))
  {
  }

  /** A position reached through a dot is neither `result` nor `error`, which hold no dot. */
  lemma NoDot(x: string, k: string)
    requires StartsWith(x, k + ".")
    ensures x != "result" && x != "error"
  {
    assert x[|k|] == (k + ".")[|k|] == '.';
    assert forall m | 0 <= m < |"result"| :: "result"[m] != '.';
    assert forall m | 0 <= m < |"error"| :: "error"[m] != '.';
  }

  /** With neither key at the top level no event starts a builder. */
  lemma {:induction false} TopLevelQuiet(body: Json, i: nat)
    requires body.JObj? && i <= |body.entries|
    requires forall m | 0 <= m < |body.entries| :: body.entries[m].0 != "result" && body.entries[m].0 != "error"
    ensures forall e | e in EncodeEntries(body, i, []) :: !Opens(e)
    decreases |body.entries| - i
  {
    if i < |body.entries| {
      var k := body.entries[i].0;
      var v := body.entries[i].1;
      assert [] + [k] == [k];
      assert Prefix([k]) == k;
      EncodeUnder(v, [k]);
      forall e | e in Encode(v, [k])
        ensures !Opens(e)
      {
        if e.prefix != k {
          NoDot(e.prefix, k);
        }
      }
      TopLevelQuiet(body, i + 1);
    }
  }

  /** Events that start no builder leave an idle consumer as it was. */
  lemma {:induction false} RunIdle(s: Parser, events: seq<Event>)
    requires !(s.single || s.many || s.error) && s.raised.None?
    requires forall e | e in events :: !Opens(e)
    ensures Run(s, events) == s
    decreases |events|
  {
    if |events| > 0 {
      assert Step(s, events[0]) == s;
      assert forall e | e in events[1..] :: e in events;
      RunIdle(s, events[1..]);
    }
  }

  /** A top-level object with neither `result` nor `error` raises `MissingResult` and yields nothing. */
  lemma ParseMissing(body: Json, count: int)
    requires body.JObj?
    requires forall m | 0 <= m < |body.entries| :: body.entries[m].0 != "result" && body.entries[m].0 != "error"
    ensures Parse(Encode(body, []), count) == Trace([], count, Raised(MissingResult))
  {
    TopLevelQuiet(body, 0);
    assert Prefix([]) == "";
    RunIdle(Initial(count), Encode(body, []));
  }

  /** An empty `result` array ends quietly, so `first()` reports `NoResults` and `one_or_none()` gives `None`. */
  lemma EmptyResult(count: int)
    ensures First(Parse(Encode(JObj([("result", JArr([]))]), []), count)) == Err(NoResults(NoRecordsMessage))
    ensures OneOrNone(Parse(Encode(JObj([("result", JArr([]))]), []), count)) == Ok(None)
  {
    ParseMany([], count);
  }
}
