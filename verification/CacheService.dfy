/** The cache service as it runs over its store. */
module CacheService {
  import opened Results
  import opened OnceCache

  /** The steps of one undisturbed `once`; `c` is its call, `cacher` the cacher's outcome, `None` if it throws. */
  function OnceActions(key: string, options: OnceOptions, cacher: Option<Value>, c: nat): seq<Action> {
    if cacher.None? then [Ask(key, options), CacherThrows(c)] else [Ask(key, options), Fetch(c), Return(c)]
  }

  /** The writes on their way and the number of computations after an undisturbed `once`, and the value it returns. */
  ghost predicate Leaves(s: Cache, key: string, options: OnceOptions, cacher: Option<Value>,
                         pending: seq<Write>, serial: nat, r: Option<Value>) {
    var hit := Hit(s.store, key, s.now, options);
    if hit.Some? then r == Some(hit.value.value) && pending == s.pending && serial == s.serial
    else if cacher.None? then r == None && pending == s.pending && serial == s.serial
    else
      && r == cacher
      && pending == s.pending + [WriteOf(key, options, Fetched(cacher.value, s.serial, s.now), s.defaultTime)]
      && serial == s.serial + 1
  }

  /** From `s` to `t` the store and the clock stay, at most one call is added and has ended, and `r` is the answer given,
      if any. */
  ghost predicate Answered(s: Cache, t: Cache, r: Option<Value>) {
    && t.store == s.store && t.now == s.now && t.defaultTime == s.defaultTime
    && (t.calls == s.calls || t.calls == s.calls + [None])
    && if r.None? then t.answers == s.answers
       else |t.answers| == |s.answers| + 1 && s.answers <= t.answers && ValueOf(t.answers[|s.answers|]) == r.value
  }

  lemma HitIsARun(world: World, s: Cache, key: string, options: OnceOptions, cacher: Option<Value>)
    requires Hit(s.store, key, s.now, options).Some?
    ensures
      var t := Exec(world, s, OnceActions(key, options, cacher, |s.calls|));
      var r := Some(Hit(s.store, key, s.now, options).value.value);
      Answered(s, t, r) && t.pending == s.pending && t.serial == s.serial
  {
    var c := |s.calls|;
    if cacher.None? {
      ExecTwo(world, s, Ask(key, options), CacherThrows(c));
    } else {
      ExecThree(world, s, Ask(key, options), Fetch(c), Return(c));
    }
  }

  /** A missed call whose cacher has read its value. */
  function Read(world: World, s: Cache, key: string, options: OnceOptions): Cache {
    var fetched := Fetched(world(key, s.now), s.serial, s.now);
    s.(calls := s.calls + [Some(Waiting(key, options, s.now, Some(fetched)))], serial := s.serial + 1)
  }

  lemma MissReads(world: World, s: Cache, key: string, options: OnceOptions)
    requires Hit(s.store, key, s.now, options).None?
    ensures Apply(world, Apply(world, s, Ask(key, options)), Fetch(|s.calls|)) == Read(world, s, key, options)
  {
    var t := Apply(world, Apply(world, s, Ask(key, options)), Fetch(|s.calls|));
    assert t.calls == Read(world, s, key, options).calls;
  }

  lemma ReadReturns(world: World, s: Cache, key: string, options: OnceOptions)
    ensures
      var v := world(key, s.now);
      var t := Apply(world, Read(world, s, key, options), Return(|s.calls|));
      && Answered(s, t, Some(v))
      && t.pending == s.pending + [WriteOf(key, options, Fetched(v, s.serial, s.now), s.defaultTime)]
      && t.serial == s.serial + 1
  {
    var t := Apply(world, Read(world, s, key, options), Return(|s.calls|));
    assert t.calls == s.calls + [None];
  }

  lemma MissIsARun(world: World, s: Cache, key: string, options: OnceOptions)
    requires Hit(s.store, key, s.now, options).None?
    ensures
      var v := world(key, s.now);
      var t := Exec(world, s, OnceActions(key, options, Some(v), |s.calls|));
      && Answered(s, t, Some(v))
      && t.pending == s.pending + [WriteOf(key, options, Fetched(v, s.serial, s.now), s.defaultTime)]
      && t.serial == s.serial + 1
  {
    ExecThree(world, s, Ask(key, options), Fetch(|s.calls|), Return(|s.calls|));
    MissReads(world, s, key, options);
    ReadReturns(world, s, key, options);
  }

  lemma ThrowIsARun(world: World, s: Cache, key: string, options: OnceOptions)
    requires Hit(s.store, key, s.now, options).None?
    ensures
      var t := Exec(world, s, OnceActions(key, options, None, |s.calls|));
      Answered(s, t, None) && t.pending == s.pending && t.serial == s.serial
  {
    var c := |s.calls|;
    ExecTwo(world, s, Ask(key, options), CacherThrows(c));
    assert Apply(world, Apply(world, s, Ask(key, options)), CacherThrows(c)).calls == s.calls + [None];
  }

  /** An undisturbed `once`, whatever its cacher does, is a run of its steps: the run leaves the same writes on their way, gives
      the same answer or none, and leaves the call ended. */
  lemma OnceIsARun(world: World, s: Cache, key: string, options: OnceOptions, cacher: Option<Value>,
                   pending: seq<Write>, serial: nat, r: Option<Value>)
    requires cacher.Some? ==> world(key, s.now) == cacher.value
    requires Leaves(s, key, options, cacher, pending, serial, r)
    ensures
      var t := Exec(world, s, OnceActions(key, options, cacher, |s.calls|));
      Answered(s, t, r) && t.pending == pending && t.serial == serial
  {
    if Hit(s.store, key, s.now, options).Some? {
      HitIsARun(world, s, key, options, cacher);
    } else if cacher.None? {
      ThrowIsARun(world, s, key, options);
    } else {
      MissIsARun(world, s, key, options);
    }
  }

  class CacheManagerService {
    const defaultTime: int
    var now: int
    var store: map<string, Entry>
    var pending: seq<Write>       // writes issued and not yet landed
    var serial: nat

    constructor (now: int, defaultTime: int)
      ensures this.now == now && this.defaultTime == defaultTime
      ensures store == map[] && pending == [] && serial == 0
    {
      this.now, this.defaultTime := now, defaultTime;
      store, pending, serial := map[], [], 0;
    }

    /** This service as the cache of the step machine, before any call. */
    function View(): Cache
      reads this
    {
      Cache(now, defaultTime, store, pending, [], serial, [])
    }

    /** An absent or expired entry reads as undefined. */
    method GetData(key: string) returns (data: Value)
      ensures key in store && now < store[key].landedAt + store[key].ttl ==> data == store[key].value
      ensures key !in store || now >= store[key].landedAt + store[key].ttl ==> data == Undefined
    {
      data := Undefined;
      if key in store && now < store[key].landedAt + store[key].ttl {
        data := store[key].value;
      }
    }

    /** Issues a write with the given time to live, or the default when it is zero or not a number. `computation` and
        `requested` record where the value comes from. */
    method SetData(key: string, data: Value, ttl: Option<int>, computation: nat, requested: Seconds)
      modifies `pending
      ensures
        var seconds := if ttl == None || ttl == Some(0) then defaultTime else ttl.value;
        pending == old(pending) + [Write(key, data, computation, now, requested, seconds)]
    {
      var seconds := defaultTime;
      if ttl.Some? && ttl.value != 0 {
        seconds := ttl.value;
      }
      pending := pending + [Write(key, data, computation, now, requested, seconds)];
    }

    method RemoveData(key: string) returns (removed: string)
      modifies `store
      ensures removed == key
      ensures forall k :: k in store <==> k in old(store) && key != "CACHE_ALL" && key != k
      ensures forall k :: k in store ==> store[k] == old(store)[k]
      ensures forall world: World :: Apply(world, old(View()), Remove(key)) == View()
    {
      if key == CACHE_KEY_ALL {
        store := map[];
      } else {
        store := store - {key};
      }
      removed := key;
    }

    /** A truthy live entry is returned and nothing changes; otherwise the cacher's value is returned and a write of it is
        issued and not awaited. `cacher` is the cacher's outcome, `None` if it throws. In any surroundings this is the run
        of the steps of an undisturbed call. */
    method Once(key: string, format: OptionFormat, cacher: Option<Value>) returns (r: Option<Value>)
      modifies `pending, `serial
      ensures
        var options := ToOnceOptions(format);
        var hit := Hit(store, key, now, options);
        if hit.Some? then r == Some(hit.value.value) && pending == old(pending) && serial == old(serial)
        else if cacher.None? then r == None && pending == old(pending) && serial == old(serial)
        else
          && r == cacher
          && pending == old(pending) + [WriteOf(key, options, Fetched(cacher.value, old(serial), now), defaultTime)]
          && serial == old(serial) + 1
      ensures forall world: World, calls: seq<Option<Waiting>>, answers: seq<Answer> ::
        (cacher.Some? ==> world(key, now) == cacher.value) ==>
          var s := old(View()).(calls := calls, answers := answers);
          var t := Exec(world, s, OnceActions(key, ToOnceOptions(format), cacher, |calls|));
          Answered(s, t, r) && t == View().(calls := t.calls, answers := t.answers)
      ensures if Servable(store, key, now) && !Ignoring(format) then
          r == Some(store[key].value) && pending == old(pending)
        else
          r == cacher && old(pending) <= pending && |pending| == |old(pending)| + (if cacher.Some? then 1 else 0)
      ensures pending != old(pending) ==>
        var w := pending[|old(pending)|];
        && w.key == key && Some(w.value) == cacher && w.computedAt == now
        && Requests(format, w.value, w.requested) && KeptFor(w.requested, defaultTime, w.ttl)
    {
      FalsyExactly(if key in store then store[key].value else Undefined);
      OptionsByForm(format, if cacher.Some? then cacher.value else Undefined);
      var options := ToOnceOptions(format);
      if !options.ignoreCache {
        var inCache := GetData(key);
        if Truthy(inCache) {
          Undisturbed(key, options, cacher, pending, serial, Some(inCache));
          return Some(inCache);
        }
      }
      if cacher.None? {
        Undisturbed(key, options, cacher, pending, serial, None);
        return None;
      }
      var val := cacher.value;
      var computation := serial;
      ghost var write := WriteOf(key, options, Fetched(val, serial, now), defaultTime);
      Undisturbed(key, options, cacher, pending + [write], serial + 1, Some(val));
      serial := serial + 1;
      var requested := options.ttl(val);
      WholeSecondsOrDefault(requested, defaultTime);
      SetData(key, val, FloorTtl(requested), computation, requested);
      r := Some(val);
    }

    lemma Undisturbed(key: string, options: OnceOptions, cacher: Option<Value>,
                      pending': seq<Write>, serial': nat, r: Option<Value>)
      requires Leaves(View(), key, options, cacher, pending', serial', r)
      ensures forall world: World, calls: seq<Option<Waiting>>, answers: seq<Answer> ::
        (cacher.Some? ==> world(key, now) == cacher.value) ==>
          var s := View().(calls := calls, answers := answers);
          var t := Exec(world, s, OnceActions(key, options, cacher, |calls|));
          Answered(s, t, r) && t.pending == pending' && t.serial == serial'
    {
      forall world: World, calls: seq<Option<Waiting>>, answers: seq<Answer> | cacher.Some? ==> world(key, now) == cacher.value
        ensures
          var s := View().(calls := calls, answers := answers);
          var t := Exec(world, s, OnceActions(key, options, cacher, |calls|));
          Answered(s, t, r) && t.pending == pending' && t.serial == serial'
      {
        OnceIsARun(world, View().(calls := calls, answers := answers), key, options, cacher, pending', serial', r);
      }
    }
  }
}
