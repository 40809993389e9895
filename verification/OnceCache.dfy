/** The read-through cache `once` as a step machine: calls, late writes, expiry and removal in any order. */
module OnceCache {
  import opened Results
  import opened Counting

  const CACHE_KEY_ALL := "CACHE_ALL"

  /* ---------- values and options ---------- */

  datatype Value = Undefined | Null | NaN | Bool(b: bool) | Number(n: int) | Text(s: string) | Object(id: nat)

  predicate Truthy(v: Value) {
    match v
    case Undefined => false
    case Null => false
    case NaN => false
    case Bool(b) => b
    case Number(n) => n != 0
    case Text(s) => s != ""
    case Object(_) => true
  }

  /** The values a test for truth fails on. */
  lemma FalsyExactly(v: Value)
    ensures !Truthy(v) <==>
      v == Undefined || v == Null || v == NaN || v == Bool(false) || v == Number(0) || v == Text("")
  {
  }

  /** A time to live in seconds; `None` is undefined or not a number. */
  type Seconds = Option<real>

  type TTLResolver = Value -> Seconds

  datatype OnceOptions = OnceOptions(ttl: TTLResolver, ignoreCache: bool)

  /** The forms in which options may be given; the fields of the last may each be left out. */
  datatype OptionFormat =
    | Omitted
    | StaticTtl(seconds: Seconds)
    | ResolvedTtl(resolver: TTLResolver)
    | PartialOptions(ttl: Option<TTLResolver>, ignoreCache: Option<bool>)

  function NoTtl(v: Value): Seconds { None }

  function ToOnceOptions(format: OptionFormat): OnceOptions {
    match format
    case Omitted => OnceOptions(NoTtl, false)
    case StaticTtl(seconds) => OnceOptions((v: Value) => seconds, false)
    case ResolvedTtl(resolver) => OnceOptions(resolver, false)
    case PartialOptions(ttl, ignoreCache) =>
      OnceOptions(if ttl.Some? then ttl.value else NoTtl, ignoreCache.Some? && ignoreCache.value)
  }

  /** `Math.floor`; not a number stays so. */
  function FloorTtl(ttl: Seconds): Option<int> {
    if ttl.None? then None else Some(ttl.value.Floor)
  }

  /** `ttl || defaultTime` */
  function EffectiveTtl(ttl: Option<int>, defaultTime: int): int {
    if ttl.None? || ttl.value == 0 then defaultTime else ttl.value
  }

  /** The store keeps a value at most as long as its caller asked exactly when the request is a number outside [0, 1);
      a fraction of a second is floored to zero and replaced by the default. */
  lemma TtlHonouredExactly(ttl: real, defaultTime: int)
    requires defaultTime >= 1
    ensures EffectiveTtl(FloorTtl(Some(ttl)), defaultTime) as real <= ttl <==> !(0.0 <= ttl < 1.0)
    ensures EffectiveTtl(FloorTtl(None), defaultTime) == defaultTime
  {
  }

  /** A write is kept for the whole seconds requested; nothing requested, no number, and [0, 1) mean the default. */
  ghost predicate KeptFor(requested: Seconds, defaultTime: int, ttl: int) {
    if requested.None? || 0.0 <= requested.value < 1.0 then ttl == defaultTime
    else ttl as real <= requested.value < (ttl + 1) as real
  }

  lemma WholeSecondsOrDefault(requested: Seconds, defaultTime: int)
    ensures KeptFor(requested, defaultTime, EffectiveTtl(FloorTtl(requested), defaultTime))
  {
  }

  /** The time to live a form of options requests for a value. */
  ghost predicate Requests(format: OptionFormat, v: Value, requested: Seconds) {
    && (format.Omitted? ==> requested == None)
    && (format.StaticTtl? ==> requested == format.seconds)
    && (format.ResolvedTtl? ==> requested == format.resolver(v))
    && (format.PartialOptions? && format.ttl.Some? ==> requested == format.ttl.value(v))
    && (format.PartialOptions? && format.ttl.None? ==> requested == None)
  }

  /** Only partial options that say so ignore the cache. */
  ghost predicate Ignoring(format: OptionFormat) {
    format.PartialOptions? && format.ignoreCache == Some(true)
  }

  lemma OptionsByForm(format: OptionFormat, v: Value)
    ensures ToOnceOptions(format).ignoreCache <==> Ignoring(format)
    ensures Requests(format, v, ToOnceOptions(format).ttl(v))
  {
  }

  /* ---------- state ---------- */

  /** What a cacher has read for its call and will return; computations are numbered and dated by this moment. */
  datatype Fetched = Fetched(value: Value, serial: nat, at: int)

  /** A stored value; `serial` numbers the computation it came from, `requested` is the time to live its caller asked for. */
  datatype Entry = Entry(value: Value, serial: nat, computedAt: int, landedAt: int, requested: Seconds, ttl: int)

  /** A write that has been issued but not awaited. */
  datatype Write = Write(key: string, value: Value, serial: nat, computedAt: int, requested: Seconds, ttl: int)

  /** A call that missed, or ignored, the store and waits for its cacher to return. */
  datatype Waiting = Waiting(key: string, options: OnceOptions, askedAt: int, fetched: Option<Fetched>)

  datatype Answer =
    | FromStore(key: string, entry: Entry, at: int)
    | FromCacher(key: string, computed: Value, serial: nat, computedAt: int, requested: Seconds, askedAt: int, at: int)

  datatype Cache = Cache(
    now: int,
    defaultTime: int,
    store: map<string, Entry>,
    pending: seq<Write>,
    calls: seq<Option<Waiting>>,   // `None` once the call has ended
    serial: nat,                   // number of computations so far
    answers: seq<Answer>)          // in the order they were given

  function ValueOf(a: Answer): Value {
    match a
    case FromStore(_, e, _) => e.value
    case FromCacher(_, v, _, _, _, _, _) => v
  }

  predicate Live(e: Entry, now: int) {
    now < e.landedAt + e.ttl
  }

  /** What the store returns for a key: nothing once the entry has expired. */
  function Lookup(store: map<string, Entry>, key: string, now: int): Option<Entry> {
    if key in store && Live(store[key], now) then Some(store[key]) else None
  }

  /** A truthy entry for the key that has not expired. */
  ghost predicate Servable(store: map<string, Entry>, key: string, now: int) {
    && key in store
    && now < store[key].landedAt + store[key].ttl
    && store[key].value !in {Undefined, Null, NaN, Bool(false), Number(0), Text("")}
  }

  /** The cached entry a call may use. */
  function Hit(store: map<string, Entry>, key: string, now: int, options: OnceOptions): Option<Entry> {
    var found := Lookup(store, key, now);
    if !options.ignoreCache && found.Some? && Truthy(found.value.value) then found else None
  }

  /** The time to live a value is stored with. */
  function StoredFor(options: OnceOptions, v: Value, defaultTime: int): int {
    EffectiveTtl(FloorTtl(options.ttl(v)), defaultTime)
  }

  function WriteOf(key: string, options: OnceOptions, c: Fetched, defaultTime: int): Write {
    Write(key, c.value, c.serial, c.at, options.ttl(c.value), StoredFor(options, c.value, defaultTime))
  }

  function RemoveFrom(store: map<string, Entry>, removed: string): map<string, Entry> {
    if removed == CACHE_KEY_ALL then map[] else store - {removed}
  }

  /* ---------- steps ---------- */

  datatype Action =
    | Ask(key: string, options: OnceOptions)
    | Fetch(call: nat)
    | Return(call: nat)
    | CacherThrows(call: nat)
    | Land(write: nat)
    | Lose(write: nat)
    | Remove(key: string)
    | Tick(seconds: nat)

  /** `world` is what the cacher of a key reads at a time; it may return what it has read later. */
  type World = (string, int) -> Value

  function Apply(world: World, s: Cache, a: Action): Cache {
    match a
    case Ask(key, options) =>
      var hit := Hit(s.store, key, s.now, options);
      if hit.Some? then s.(answers := s.answers + [FromStore(key, hit.value, s.now)])
      else s.(calls := s.calls + [Some(Waiting(key, options, s.now, None))])
    case Fetch(c) =>
      if c < |s.calls| && s.calls[c].Some? && s.calls[c].value.fetched.None? then
        var call := s.calls[c].value;
        s.(calls := s.calls[c := Some(call.(fetched := Some(Fetched(world(call.key, s.now), s.serial, s.now))))],
           serial := s.serial + 1)
      else s
    case Return(c) =>
      if c < |s.calls| && s.calls[c].Some? && s.calls[c].value.fetched.Some? then
        var Waiting(key, options, askedAt, fetched) := s.calls[c].value;
        var Fetched(v, serial, computedAt) := fetched.value;
        s.(calls := s.calls[c := None],
           pending := s.pending + [WriteOf(key, options, fetched.value, s.defaultTime)],
           answers := s.answers + [FromCacher(key, v, serial, computedAt, options.ttl(v), askedAt, s.now)])
      else s
    case CacherThrows(c) =>
      if c < |s.calls| then s.(calls := s.calls[c := None]) else s
    case Land(w) =>
      if w < |s.pending| then
        var Write(key, value, serial, computedAt, requested, ttl) := s.pending[w];
        s.(store := s.store[key := Entry(value, serial, computedAt, s.now, requested, ttl)],
           pending := s.pending[..w] + s.pending[w + 1..])
      else s
    case Lose(w) =>
      if w < |s.pending| then s.(pending := s.pending[..w] + s.pending[w + 1..]) else s
    case Remove(key) =>
      s.(store := RemoveFrom(s.store, key))
    case Tick(seconds) =>
      s.(now := s.now + seconds)
  }

  function Exec(world: World, s: Cache, actions: seq<Action>): Cache {
    if actions == [] then s
    else Apply(world, Exec(world, s, actions[..|actions| - 1]), actions[|actions| - 1])
  }

  /* ---------- coherence ---------- */

  ghost predicate EntryOk(world: World, s: Cache, key: string, e: Entry) {
    && e.value == world(key, e.computedAt)
    && e.computedAt <= e.landedAt <= s.now
    && e.serial < s.serial
    && e.ttl == EffectiveTtl(FloorTtl(e.requested), s.defaultTime)
  }

  ghost predicate WriteOk(world: World, s: Cache, w: Write) {
    && w.value == world(w.key, w.computedAt)
    && w.computedAt <= s.now
    && w.serial < s.serial
    && w.ttl == EffectiveTtl(FloorTtl(w.requested), s.defaultTime)
  }

  ghost predicate AnswerOk(world: World, defaultTime: int, a: Answer) {
    match a
    case FromStore(key, e, at) =>
      && e.value == world(key, e.computedAt)
      && e.computedAt <= e.landedAt <= at
      && Live(e, at)
      && Truthy(e.value)
      && e.ttl == EffectiveTtl(FloorTtl(e.requested), defaultTime)
    case FromCacher(key, v, _, computedAt, _, askedAt, at) =>
      v == world(key, computedAt) && askedAt <= computedAt <= at
  }

  ghost predicate WaitingOk(world: World, s: Cache, call: Waiting) {
    && call.askedAt <= s.now
    && (call.fetched.Some? ==>
          && call.fetched.value.value == world(call.key, call.fetched.value.at)
          && call.askedAt <= call.fetched.value.at <= s.now
          && call.fetched.value.serial < s.serial)
  }

  /** Every fetched, pending, stored and answered value is what the cacher read at the time it was computed. */
  ghost predicate Coherent(world: World, s: Cache) {
    && (forall key :: key in s.store ==> EntryOk(world, s, key, s.store[key]))
    && (forall i :: 0 <= i < |s.pending| ==> WriteOk(world, s, s.pending[i]))
    && (forall i :: 0 <= i < |s.calls| && s.calls[i].Some? ==> WaitingOk(world, s, s.calls[i].value))
    && (forall i :: 0 <= i < |s.answers| ==> AnswerOk(world, s.defaultTime, s.answers[i]))
  }

  lemma StepKeepsCoherent(world: World, s: Cache, a: Action)
    requires Coherent(world, s)
    ensures Coherent(world, Apply(world, s, a))
    ensures s.answers <= Apply(world, s, a).answers && Apply(world, s, a).defaultTime == s.defaultTime
    ensures s.now <= Apply(world, s, a).now
  {
  }

  lemma {:induction false} RunKeepsCoherent(world: World, s: Cache, actions: seq<Action>)
    requires Coherent(world, s)
    ensures Coherent(world, Exec(world, s, actions))
    ensures s.answers <= Exec(world, s, actions).answers && Exec(world, s, actions).defaultTime == s.defaultTime
    ensures s.now <= Exec(world, s, actions).now
  {
    if actions != [] {
      var n := |actions| - 1;
      RunKeepsCoherent(world, s, actions[..n]);
      StepKeepsCoherent(world, Exec(world, s, actions[..n]), actions[n]);
    }
  }

  /** Refinement: when each key's cacher always returns the same value, every answer of every run is that value,
      and no falsy value is ever served from the store. */
  lemma OnceAgreesWithTheCacher(world: World, f: string -> Value, s: Cache, actions: seq<Action>, i: nat)
    requires Coherent(world, s)
    requires forall key, at :: world(key, at) == f(key)
    requires i < |Exec(world, s, actions).answers|
    ensures
      var a := Exec(world, s, actions).answers[i];
      && ValueOf(a) == f(a.key)
      && (a.FromStore? ==> Truthy(f(a.key)))
  {
    RunKeepsCoherent(world, s, actions);
    assert AnswerOk(world, s.defaultTime, Exec(world, s, actions).answers[i]);
  }

  /** Bounded staleness: a value served from the store was read by the cacher less than its effective time to live plus
      the delay of its landing ago; an answer from the cacher was read between the call's question and its answer. */
  lemma StalenessIsBounded(world: World, s: Cache, actions: seq<Action>, i: nat)
    requires Coherent(world, s)
    requires i < |Exec(world, s, actions).answers|
    ensures
      match Exec(world, s, actions).answers[i]
      case FromStore(key, e, at) =>
        && e.value == world(key, e.computedAt) && Truthy(e.value)
        && e.computedAt <= e.landedAt <= at
        && at - e.computedAt < e.ttl + (e.landedAt - e.computedAt)
        && e.ttl == EffectiveTtl(FloorTtl(e.requested), s.defaultTime) && e.ttl > 0
      case FromCacher(key, v, _, computedAt, _, askedAt, at) =>
        v == world(key, computedAt) && askedAt <= computedAt <= at
  {
    RunKeepsCoherent(world, s, actions);
    assert AnswerOk(world, s.defaultTime, Exec(world, s, actions).answers[i]);
  }

  /** Call `c` is the question asked at `askedAt`, and what its cacher has read was computed from number `n` on. */
  ghost predicate Asked(s: Cache, c: nat, key: string, options: OnceOptions, askedAt: int, n: nat) {
    && c < |s.calls| && n <= s.serial
    && (s.calls[c].Some? ==>
          var call := s.calls[c].value;
          && call.key == key && call.options == options && call.askedAt == askedAt
          && (call.fetched.Some? ==> n <= call.fetched.value.serial))
  }

  lemma {:induction false} RunKeepsAsked(
    world: World, s: Cache, actions: seq<Action>, c: nat, key: string, options: OnceOptions, askedAt: int, n: nat)
    requires Asked(s, c, key, options, askedAt, n)
    ensures Asked(Exec(world, s, actions), c, key, options, askedAt, n)
  {
    if actions != [] {
      var m := |actions| - 1;
      RunKeepsAsked(world, s, actions[..m], c, key, options, askedAt, n);
      StepKeepsAsked(world, Exec(world, s, actions[..m]), actions[m], c, key, options, askedAt, n);
    }
  }

  lemma StepKeepsAsked(world: World, s: Cache, a: Action, c: nat, key: string, options: OnceOptions, askedAt: int, n: nat)
    requires Asked(s, c, key, options, askedAt, n)
    ensures Asked(Apply(world, s, a), c, key, options, askedAt, n)
  {
  }

  /** A call that ignores the cache never gets a stored answer: it waits, whatever happens in between, and when its cacher
      returns, the answer is a computation that is newer than every one before the question and was read after it. */
  lemma IgnoringTheCacheIsFresh(world: World, s: Cache, key: string, options: OnceOptions, between: seq<Action>)
    requires Coherent(world, s) && options.ignoreCache
    ensures
      var asked := Apply(world, s, Ask(key, options));
      var t := Exec(world, asked, between);
      var c := |s.calls|;
      && asked.answers == s.answers
      && asked.calls == s.calls + [Some(Waiting(key, options, s.now, None))]
      && c < |t.calls|
      && (t.calls[c].Some? && t.calls[c].value.fetched.Some? ==>
            var Fetched(v, serial, computedAt) := t.calls[c].value.fetched.value;
            && Apply(world, t, Return(c)).answers
                 == t.answers + [FromCacher(key, v, serial, computedAt, options.ttl(v), s.now, t.now)]
            && v == world(key, computedAt) && s.now <= computedAt <= t.now && s.serial <= serial)
  {
    var asked := Apply(world, s, Ask(key, options));
    StepKeepsCoherent(world, s, Ask(key, options));
    RunKeepsCoherent(world, asked, between);
    RunKeepsAsked(world, asked, between, |s.calls|, key, options, s.now, s.serial);
    var t := Exec(world, asked, between);
    assert t.calls[|s.calls|].Some? ==> WaitingOk(world, t, t.calls[|s.calls|].value);
  }

  /** How a question is answered, by the form of its options: from the store exactly when it does not ignore the cache
      and a truthy live entry is there, and otherwise by waiting for its cacher, with no answer yet. */
  lemma AskedByForm(world: World, s: Cache, key: string, format: OptionFormat)
    ensures
      var t := Apply(world, s, Ask(key, ToOnceOptions(format)));
      if Servable(s.store, key, s.now) && !Ignoring(format) then
        t == s.(answers := s.answers + [FromStore(key, s.store[key], s.now)])
      else
        t == s.(calls := s.calls + [Some(Waiting(key, ToOnceOptions(format), s.now, None))])
  {
    OptionsByForm(format, Undefined);
    if key in s.store { FalsyExactly(s.store[key].value); }
  }

  /** The write that a returning cacher issues requests what the form of the call's options says. */
  lemma ReturnedByForm(world: World, s: Cache, c: nat, format: OptionFormat)
    requires c < |s.calls| && s.calls[c].Some? && s.calls[c].value.fetched.Some?
    requires s.calls[c].value.options == ToOnceOptions(format)
    ensures
      var Waiting(key, options, askedAt, fetched) := s.calls[c].value;
      var Fetched(v, serial, computedAt) := fetched.value;
      var t := Apply(world, s, Return(c));
      && |t.pending| == |s.pending| + 1 && t.pending[..|s.pending|] == s.pending
      && var w := t.pending[|s.pending|];
      && w.key == key && w.value == v && w.serial == serial && w.computedAt == computedAt
      && Requests(format, v, w.requested) && KeptFor(w.requested, s.defaultTime, w.ttl)
      && t.answers == s.answers + [FromCacher(key, v, serial, computedAt, w.requested, askedAt, s.now)]
  {
    var v := s.calls[c].value.fetched.value.value;
    OptionsByForm(format, v);
    WholeSecondsOrDefault(ToOnceOptions(format).ttl(v), s.defaultTime);
  }

  /** No step of the run removes the key or lands a write for it. */
  ghost predicate LeavesAlone(world: World, s: Cache, actions: seq<Action>, key: string) {
    actions == []
    || (var n := |actions| - 1;
        var t, a := Exec(world, s, actions[..n]), actions[n];
        && LeavesAlone(world, s, actions[..n], key)
        && (a.Remove? ==> a.key != "CACHE_ALL" && a.key != key)
        && (a.Land? && a.write < |t.pending| ==> t.pending[a.write].key != key))
  }

  lemma {:induction false} EntryStays(world: World, s: Cache, actions: seq<Action>, key: string)
    requires key in s.store && LeavesAlone(world, s, actions, key)
    ensures key in Exec(world, s, actions).store && Exec(world, s, actions).store[key] == s.store[key]
  {
    if actions != [] {
      EntryStays(world, s, actions[..|actions| - 1], key);
    }
  }

  /** A landed write is served, by every call that does not ignore the cache, for exactly as long as it is kept: until its
      time to live is over or the key is removed or written again; a falsy value is never served. */
  lemma ServedUntilExpiry(world: World, s: Cache, w: nat, between: seq<Action>, format: OptionFormat)
    requires w < |s.pending| && !Ignoring(format)
    requires LeavesAlone(world, Apply(world, s, Land(w)), between, s.pending[w].key)
    ensures
      var write := s.pending[w];
      var t := Exec(world, Apply(world, s, Land(w)), between);
      var u := Apply(world, t, Ask(write.key, ToOnceOptions(format)));
      if t.now < s.now + write.ttl && write.value !in {Undefined, Null, NaN, Bool(false), Number(0), Text("")} then
        && u.calls == t.calls && |u.answers| == |t.answers| + 1
        && u.answers[|t.answers|].FromStore? && u.answers[|t.answers|].key == write.key
        && u.answers[|t.answers|].entry.value == write.value
      else u.answers == t.answers && |u.calls| == |t.calls| + 1
  {
    var landed, key := Apply(world, s, Land(w)), s.pending[w].key;
    EntryStays(world, landed, between, key);
    AskedByForm(world, Exec(world, landed, between), key, format);
  }

  /* ---------- where stored answers come from ---------- */

  ghost predicate Originates(answers: seq<Answer>, key: string, value: Value, serial: nat, computedAt: int, requested: Seconds) {
    exists i :: 0 <= i < |answers| && ComputedBy(answers[i], key, value, serial, computedAt, requested)
  }

  predicate ComputedBy(a: Answer, key: string, value: Value, serial: nat, computedAt: int, requested: Seconds) {
    && a.FromCacher?
    && a.key == key && a.computed == value && a.serial == serial && a.computedAt == computedAt && a.requested == requested
  }

  ghost predicate AllOriginate(s: Cache) {
    && (forall key :: key in s.store ==>
          var e := s.store[key]; Originates(s.answers, key, e.value, e.serial, e.computedAt, e.requested))
    && (forall i :: 0 <= i < |s.pending| ==>
          var w := s.pending[i]; Originates(s.answers, w.key, w.value, w.serial, w.computedAt, w.requested))
    && (forall i :: 0 <= i < |s.answers| && s.answers[i].FromStore? ==>
          var e := s.answers[i].entry;
          Originates(s.answers[..i], s.answers[i].key, e.value, e.serial, e.computedAt, e.requested))
  }

  lemma OriginatesGrows(before: seq<Answer>, after: seq<Answer>, key: string, value: Value, serial: nat, computedAt: int, requested: Seconds)
    requires before <= after && Originates(before, key, value, serial, computedAt, requested)
    ensures Originates(after, key, value, serial, computedAt, requested)
  {
    var i :| 0 <= i < |before| && ComputedBy(before[i], key, value, serial, computedAt, requested);
    assert after[i] == before[i];
  }

  lemma StoreOriginates(world: World, s: Cache, a: Action, key: string)
    requires AllOriginate(s) && key in Apply(world, s, a).store
    ensures
      var t := Apply(world, s, a);
      var e := t.store[key]; Originates(t.answers, key, e.value, e.serial, e.computedAt, e.requested)
  {
    var t := Apply(world, s, a);
    var e := t.store[key];
    OriginatesGrows(s.answers, t.answers, key, e.value, e.serial, e.computedAt, e.requested);
  }

  lemma PendingOriginates(world: World, s: Cache, a: Action, i: nat)
    requires AllOriginate(s) && i < |Apply(world, s, a).pending|
    ensures
      var t := Apply(world, s, a);
      var w := t.pending[i]; Originates(t.answers, w.key, w.value, w.serial, w.computedAt, w.requested)
  {
    var t := Apply(world, s, a);
    var w := t.pending[i];
    if a.Return? && i == |s.pending| {
      assert ComputedBy(t.answers[|s.answers|], w.key, w.value, w.serial, w.computedAt, w.requested);
    } else {
      OriginatesGrows(s.answers, t.answers, w.key, w.value, w.serial, w.computedAt, w.requested);
    }
  }

  lemma AnswerOriginates(world: World, s: Cache, a: Action, i: nat)
    requires AllOriginate(s) && i < |Apply(world, s, a).answers| && Apply(world, s, a).answers[i].FromStore?
    ensures
      var t := Apply(world, s, a);
      var e := t.answers[i].entry;
      Originates(t.answers[..i], t.answers[i].key, e.value, e.serial, e.computedAt, e.requested)
  {
    var t := Apply(world, s, a);
    if i < |s.answers| {
      assert t.answers[..i] == s.answers[..i];
    } else {
      assert t.answers[..i] == s.answers;
    }
  }

  lemma StepKeepsOrigins(world: World, s: Cache, a: Action)
    requires AllOriginate(s)
    ensures AllOriginate(Apply(world, s, a))
  {
    var t := Apply(world, s, a);
    forall key | key in t.store
      ensures var e := t.store[key]; Originates(t.answers, key, e.value, e.serial, e.computedAt, e.requested)
    {
      StoreOriginates(world, s, a, key);
    }
    forall i | 0 <= i < |t.pending|
      ensures var w := t.pending[i]; Originates(t.answers, w.key, w.value, w.serial, w.computedAt, w.requested)
    {
      PendingOriginates(world, s, a, i);
    }
    forall i | 0 <= i < |t.answers| && t.answers[i].FromStore?
      ensures var e := t.answers[i].entry;
        Originates(t.answers[..i], t.answers[i].key, e.value, e.serial, e.computedAt, e.requested)
    {
      AnswerOriginates(world, s, a, i);
    }
  }

  function Empty(now: int, defaultTime: int): Cache {
    Cache(now, defaultTime, map[], [], [], 0, [])
  }

  lemma {:induction false} RunKeepsOrigins(world: World, now: int, defaultTime: int, actions: seq<Action>)
    ensures AllOriginate(Exec(world, Empty(now, defaultTime), actions))
  {
    if actions != [] {
      var n := |actions| - 1;
      RunKeepsOrigins(world, now, defaultTime, actions[..n]);
      StepKeepsOrigins(world, Exec(world, Empty(now, defaultTime), actions[..n]), actions[n]);
    }
  }

  /** From an empty cache, whatever is served from the store was given earlier, by the cacher, to a call for the same
      key, and is kept for the time that call asked for. */
  lemma StoredAnswersRepeatEarlierOnes(world: World, now: int, defaultTime: int, actions: seq<Action>, i: nat)
    requires i < |Exec(world, Empty(now, defaultTime), actions).answers|
    requires Exec(world, Empty(now, defaultTime), actions).answers[i].FromStore?
    ensures
      var answers := Exec(world, Empty(now, defaultTime), actions).answers;
      var e := answers[i].entry;
      && e.ttl == EffectiveTtl(FloorTtl(e.requested), defaultTime)
      && exists j :: 0 <= j < i && ComputedBy(answers[j], answers[i].key, e.value, e.serial, e.computedAt, e.requested)
  {
    RunKeepsOrigins(world, now, defaultTime, actions);
    RunKeepsCoherent(world, Empty(now, defaultTime), actions);
    var answers := Exec(world, Empty(now, defaultTime), actions).answers;
    var e := answers[i].entry;
    assert AnswerOk(world, defaultTime, answers[i]);
    var j :| 0 <= j < i && ComputedBy(answers[..i][j], answers[i].key, e.value, e.serial, e.computedAt, e.requested);
    assert answers[j] == answers[..i][j];
  }

  /* ---------- every computed answer is written once ---------- */

  /** The write that goes with an answer from a cacher. */
  function WriteFor(a: Answer, defaultTime: int): Write
    requires a.FromCacher?
  {
    Write(a.key, a.computed, a.serial, a.computedAt, a.requested, EffectiveTtl(FloorTtl(a.requested), defaultTime))
  }

  /** Cacher answers whose writes are of the given class. */
  function AnswerOf(p: Write -> bool, defaultTime: int): Answer -> bool {
    (a: Answer) => a.FromCacher? && p(WriteFor(a, defaultTime))
  }

  /** The step takes a write of the given class off its way, into the store or nowhere. */
  predicate Settles(s: Cache, a: Action, p: Write -> bool) {
    (a.Land? || a.Lose?) && a.write < |s.pending| && p(s.pending[a.write])
  }

  function SettledIn(world: World, s: Cache, actions: seq<Action>, p: Write -> bool): nat {
    if actions == [] then 0
    else
      var earlier := actions[..|actions| - 1];
      SettledIn(world, s, earlier, p) + if Settles(Exec(world, s, earlier), actions[|actions| - 1], p) then 1 else 0
  }

  ghost predicate WritesBalance(s: Cache, settled: nat, p: Write -> bool) {
    Count(s.answers, AnswerOf(p, s.defaultTime)) == Count(s.pending, p) + settled
  }

  lemma SettlingBalances(world: World, s: Cache, a: Action, settled: nat, p: Write -> bool)
    requires WritesBalance(s, settled, p) && (a.Land? || a.Lose?)
    ensures WritesBalance(Apply(world, s, a), settled + if Settles(s, a, p) then 1 else 0, p)
  {
    if a.write < |s.pending| {
      CountRemove(s.pending, a.write, p);
    }
  }

  lemma ReturningBalances(world: World, s: Cache, a: Action, settled: nat, p: Write -> bool)
    requires WritesBalance(s, settled, p) && a.Return?
    ensures WritesBalance(Apply(world, s, a), settled, p)
  {
    var t := Apply(world, s, a);
    if t != s {
      var answer := t.answers[|s.answers|];
      assert t.answers == s.answers + [answer] && t.pending == s.pending + [WriteFor(answer, s.defaultTime)];
      CountSnoc(s.answers, answer, AnswerOf(p, s.defaultTime));
      CountSnoc(s.pending, WriteFor(answer, s.defaultTime), p);
    }
  }

  lemma OtherStepsBalance(world: World, s: Cache, a: Action, settled: nat, p: Write -> bool)
    requires WritesBalance(s, settled, p) && !a.Land? && !a.Lose? && !a.Return?
    ensures WritesBalance(Apply(world, s, a), settled, p)
  {
    var t := Apply(world, s, a);
    if t.answers != s.answers {
      CountSnoc(s.answers, t.answers[|s.answers|], AnswerOf(p, s.defaultTime));
    }
  }

  /** From an empty cache, for every class of writes: the answers computed by cachers are the writes on their way and those
      that have landed or been lost, so each computed answer is written once and a write lands at most once. */
  lemma {:induction false} ComputedAnswersAreWrittenOnce(
    world: World, now: int, defaultTime: int, actions: seq<Action>, p: Write -> bool)
    ensures
      var t := Exec(world, Empty(now, defaultTime), actions);
      && t.defaultTime == defaultTime
      && Count(t.answers, AnswerOf(p, defaultTime)) == Count(t.pending, p) + SettledIn(world, Empty(now, defaultTime), actions, p)
  {
    if actions != [] {
      var s, n := Empty(now, defaultTime), |actions| - 1;
      ComputedAnswersAreWrittenOnce(world, now, defaultTime, actions[..n], p);
      var t, a, settled := Exec(world, s, actions[..n]), actions[n], SettledIn(world, s, actions[..n], p);
      if a.Land? || a.Lose? {
        SettlingBalances(world, t, a, settled, p);
      } else if a.Return? {
        ReturningBalances(world, t, a, settled, p);
      } else {
        OtherStepsBalance(world, t, a, settled, p);
      }
    }
  }

  /** A cacher reads the world as it is when it reads, whenever its call was asked. */
  lemma CacherReadsTheMoment(world: World, s: Cache, c: nat)
    requires c < |s.calls| && s.calls[c].Some? && s.calls[c].value.fetched.None?
    ensures
      var t := Apply(world, s, Fetch(c));
      && |t.calls| == |s.calls| && t.calls[c].Some?
      && t.calls[c].value.fetched == Some(Fetched(world(s.calls[c].value.key, s.now), s.serial, s.now))
      && t.serial == s.serial + 1 && t.answers == s.answers && t.pending == s.pending
  {
  }

  /** The store changes only where a write lands or a key is removed, and time passes only by itself. */
  lemma OnlyLandingsAndRemovalsStore(world: World, s: Cache, a: Action)
    ensures !a.Land? && !a.Remove? ==> Apply(world, s, a).store == s.store
    ensures a.Land? && a.write < |s.pending| ==>
      var w := s.pending[a.write];
      Apply(world, s, a).store == s.store[w.key := Entry(w.value, w.serial, w.computedAt, s.now, w.requested, w.ttl)]
    ensures Apply(world, s, a).now == if a.Tick? then s.now + a.seconds else s.now
  {
  }

  /* ---------- removal ---------- */

  /** Computations with a serial below `n` can no longer be served for the key. */
  ghost predicate OldAreDead(s: Cache, key: string, n: nat) {
    && (key in s.store && s.store[key].serial < n ==> Dead(s.store[key].value, s.store[key].ttl) && s.store[key].landedAt <= s.now)
    && (forall i :: 0 <= i < |s.pending| && s.pending[i].key == key && s.pending[i].serial < n ==>
          Dead(s.pending[i].value, s.pending[i].ttl))
    && (forall c :: 0 <= c < |s.calls| && ReadFor(s.calls[c], key) && s.calls[c].value.fetched.value.serial < n ==>
          DeadWhenReturned(s.calls[c].value, s.defaultTime))
    && s.serial >= n
  }

  /** A value the store never serves, even freshly written. */
  predicate Dead(v: Value, ttl: int) {
    !Truthy(v) || ttl <= 0
  }

  /** A call whose cacher has read a value for the key and has not returned it. */
  predicate ReadFor(call: Option<Waiting>, key: string) {
    call.Some? && call.value.key == key && call.value.fetched.Some?
  }

  predicate DeadWhenReturned(call: Waiting, defaultTime: int)
    requires call.fetched.Some?
  {
    Dead(call.fetched.value.value, StoredFor(call.options, call.fetched.value.value, defaultTime))
  }

  /** Some answer from index `start` on serves the key from the store with a computation below `n`. */
  ghost predicate ServesOld(s: Cache, start: nat, key: string, n: nat) {
    exists i :: start <= i < |s.answers| && ServedOld(s.answers[i], key, n)
  }

  predicate ServedOld(a: Answer, key: string, n: nat) {
    a.FromStore? && a.key == key && a.entry.serial < n
  }

  lemma StepKeepsDead(world: World, s: Cache, a: Action, start: nat, key: string, n: nat)
    requires OldAreDead(s, key, n) && !ServesOld(s, start, key, n) && start <= |s.answers|
    ensures
      var t := Apply(world, s, a);
      OldAreDead(t, key, n) && !ServesOld(t, start, key, n) && start <= |t.answers|
  {
    var t := Apply(world, s, a);
    forall i | start <= i < |t.answers| ensures !ServedOld(t.answers[i], key, n) {
      if i < |s.answers| { assert t.answers[i] == s.answers[i]; }
    }
  }

  lemma {:induction false} RunKeepsDead(world: World, s: Cache, actions: seq<Action>, start: nat, key: string, n: nat)
    requires OldAreDead(s, key, n) && !ServesOld(s, start, key, n) && start <= |s.answers|
    ensures
      var t := Exec(world, s, actions);
      OldAreDead(t, key, n) && !ServesOld(t, start, key, n) && start <= |t.answers|
  {
    if actions != [] {
      var m := |actions| - 1;
      RunKeepsDead(world, s, actions[..m], start, key, n);
      StepKeepsDead(world, Exec(world, s, actions[..m]), actions[m], start, key, n);
    }
  }

  /** A removal takes out the named key, or all of them, and nothing else. */
  lemma RemovalClearsExactly(world: World, s: Cache, removed: string)
    ensures
      var t := Apply(world, s, Remove(removed));
      && (forall k :: k in t.store <==> k in s.store && removed != "CACHE_ALL" && removed != k)
      && (forall k :: k in t.store ==> t.store[k] == s.store[k])
      && t == s.(store := t.store)
  {
  }

  /** No write of a servable value is on its way for the key, and no cacher has read one that it has not returned. */
  ghost predicate NothingOnItsWay(s: Cache, key: string) {
    && (forall i :: 0 <= i < |s.pending| && s.pending[i].key == key ==> Dead(s.pending[i].value, s.pending[i].ttl))
    && (forall c :: 0 <= c < |s.calls| && ReadFor(s.calls[c], key) ==> DeadWhenReturned(s.calls[c].value, s.defaultTime))
  }

  /** After the removal the given continuation serves something computed before it. */
  ghost predicate Outlives(world: World, s: Cache, removed: string, key: string, actions: seq<Action>) {
    ServesOld(Exec(world, Apply(world, s, Remove(removed)), actions), |s.answers|, key, s.serial)
  }

  /** A removal is final, so that nothing computed before it is served again in any continuation, exactly when no servable
      write for the key was on its way and no cacher was about to return a servable value it had read: neither the write
      nor the cacher is awaited or cancelled by a removal. */
  lemma RemovalIsFinalExactly(world: World, s: Cache, removed: string, key: string)
    requires Coherent(world, s) && (removed == "CACHE_ALL" || removed == key)
    ensures (forall actions :: !Outlives(world, s, removed, key, actions)) <==> NothingOnItsWay(s, key)
  {
    var r := Apply(world, s, Remove(removed));
    assert key !in r.store;
    if NothingOnItsWay(s, key) {
      forall actions ensures !Outlives(world, s, removed, key, actions) {
        RunKeepsDead(world, r, actions, |s.answers|, key, s.serial);
      }
    } else if w :| 0 <= w < |s.pending| && s.pending[w].key == key && !Dead(s.pending[w].value, s.pending[w].ttl) {
      LateWriteIsServed(world, r, w);
      assert Outlives(world, s, removed, key, [Land(w), Ask(key, ToOnceOptions(Omitted))]);
    } else {
      var c :| 0 <= c < |s.calls| && ReadFor(s.calls[c], key) && !DeadWhenReturned(s.calls[c].value, s.defaultTime);
      assert WaitingOk(world, s, s.calls[c].value);
      LateReturnIsServed(world, r, c);
      assert Outlives(world, s, removed, key, [Return(c), Land(|s.pending|), Ask(key, ToOnceOptions(Omitted))]);
    }
  }

  lemma LandedIsServed(world: World, r: Cache, w: nat)
    requires w < |r.pending| && !Dead(r.pending[w].value, r.pending[w].ttl)
    ensures
      var t := Apply(world, Apply(world, r, Land(w)), Ask(r.pending[w].key, ToOnceOptions(Omitted)));
      |t.answers| == |r.answers| + 1 && ServedOld(t.answers[|r.answers|], r.pending[w].key, r.pending[w].serial + 1)
  {
  }

  lemma LateWriteIsServed(world: World, r: Cache, w: nat)
    requires w < |r.pending| && !Dead(r.pending[w].value, r.pending[w].ttl) && r.pending[w].serial < r.serial
    ensures ServesOld(Exec(world, r, [Land(w), Ask(r.pending[w].key, ToOnceOptions(Omitted))]),
                      |r.answers|, r.pending[w].key, r.serial)
  {
    var land, ask := Land(w), Ask(r.pending[w].key, ToOnceOptions(Omitted));
    LandedIsServed(world, r, w);
    ExecTwo(world, r, land, ask);
    assert ServedOld(Exec(world, r, [land, ask]).answers[|r.answers|], r.pending[w].key, r.serial);
  }

  lemma ReturnIssuesAWrite(world: World, r: Cache, c: nat)
    requires c < |r.calls| && r.calls[c].Some? && r.calls[c].value.fetched.Some?
    ensures
      var call := r.calls[c].value;
      var t := Apply(world, r, Return(c));
      && t.pending == r.pending + [WriteOf(call.key, call.options, call.fetched.value, r.defaultTime)]
      && |t.answers| == |r.answers| + 1
  {
  }

  lemma LateReturnIsServed(world: World, r: Cache, c: nat)
    requires c < |r.calls| && r.calls[c].Some? && r.calls[c].value.fetched.Some?
    requires !DeadWhenReturned(r.calls[c].value, r.defaultTime) && r.calls[c].value.fetched.value.serial < r.serial
    ensures
      var key := r.calls[c].value.key;
      ServesOld(Exec(world, r, [Return(c), Land(|r.pending|), Ask(key, ToOnceOptions(Omitted))]), |r.answers|, key, r.serial)
  {
    var key := r.calls[c].value.key;
    var land, ask := Land(|r.pending|), Ask(key, ToOnceOptions(Omitted));
    var t := Apply(world, r, Return(c));
    ReturnIssuesAWrite(world, r, c);
    LandedIsServed(world, t, |r.pending|);
    ExecThree(world, r, Return(c), land, ask);
    assert ServedOld(Exec(world, r, [Return(c), land, ask]).answers[|r.answers| + 1], key, r.serial);
  }

  lemma ExecTwo(world: World, s: Cache, a: Action, b: Action)
    ensures Exec(world, s, [a, b]) == Apply(world, Apply(world, s, a), b)
  {
    assert [a, b][..1] == [a];
    assert [a][..0] == [];
    assert Exec(world, s, [a]) == Apply(world, s, a);
  }

  lemma ExecThree(world: World, s: Cache, a: Action, b: Action, c: Action)
    ensures Exec(world, s, [a, b, c]) == Apply(world, Apply(world, Apply(world, s, a), b), c)
  {
    assert [a, b, c][..2] == [a, b];
    ExecTwo(world, s, a, b);
  }
}
