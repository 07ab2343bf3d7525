/** The remote worker's request tables: an in-flight table, a bounded cache of responses and
    bounded tombstones, all under one lock. */
module Remote {
  import opened Values

  /** A dictionary that remembers insertion order. */
  datatype Ordered<V> = Ordered(keys: seq<string>, values: map<string, V>)

  ghost predicate OrderedOk<V>(d: Ordered<V>) {
    && (forall k :: k in d.keys <==> k in d.values)
    && (forall i, j | 0 <= i < j < |d.keys| :: d.keys[i] != d.keys[j])
  }

  /** `d[k] = v`: an existing key keeps its place. */
  function Put<V>(d: Ordered<V>, k: string, v: V): Ordered<V> {
    Ordered(if k in d.values then d.keys else d.keys + [k], d.values[k := v])
  }

  /** `d.pop(next(iter(d)))` */
  function PopOldest<V>(d: Ordered<V>): Ordered<V>
    requires d.keys != []
  {
    Ordered(d.keys[1..], d.values - {d.keys[0]})
  }

  lemma PutOk<V>(d: Ordered<V>, k: string, v: V)
    requires OrderedOk(d)
    ensures OrderedOk(Put(d, k, v)) && |Put(d, k, v).keys| == |d.keys| + if k in d.values then 0 else 1
  {}

  lemma PopOldestOk<V>(d: Ordered<V>)
    requires OrderedOk(d) && d.keys != []
    ensures OrderedOk(PopOldest(d)) && |PopOldest(d).keys| == |d.keys| - 1
    ensures d.keys[0] !in PopOldest(d).values
  {
    assert forall k :: k in d.keys <==> k == d.keys[0] || k in d.keys[1..];
  }

  const MAX_CACHE: nat := 1024
  const MAX_GRAVES: nat := 4096

  /** `marks` are the fingerprints of cached responses; `graves` the tombstones with theirs;
      `inflight` the event each running request is waited on with. */
  datatype Tables = Tables(
    cache: Ordered<Value>, marks: map<string, string>, graves: Ordered<string>,
    inflight: map<string, nat>, flightMarks: map<string, string>)

  ghost predicate TablesOk(t: Tables) {
    && OrderedOk(t.cache) && OrderedOk(t.graves) && t.marks.Keys == t.cache.values.Keys
    && |t.cache.keys| <= MAX_CACHE && |t.graves.keys| <= MAX_GRAVES
    && t.inflight.Keys == t.flightMarks.Keys
  }

  predicate Remembered(t: Tables, id: string) { id in t.cache.values || id in t.graves.values }

  // -- the lock regions ----------------------------------------------------------

  /** What a request is told when it arrives. */
  datatype Admission =
    | Refuse                  // same id with another payload
    | Gone                    // remembered only by its tombstone
    | Replay(result: Value)
    | Own(event: nat)
    | Wait(event: nat)

  /** The order of checks of the first lock region. */
  function Admit(t: Tables, id: string, mark: string, event: nat): Admission
    requires TablesOk(t)
  {
    if id in t.cache.values && t.marks[id] != mark then Refuse
    else if id !in t.cache.values && id in t.graves.values then
      if t.graves.values[id] != mark then Refuse else Gone
    else if id !in t.cache.values && id !in t.inflight then Own(event)
    else if id in t.inflight && t.flightMarks[id] != mark then Refuse
    else if id in t.cache.values then Replay(t.cache.values[id])
    else Wait(t.inflight[id])
  }

  function Admitted(t: Tables, id: string, mark: string, event: nat): Tables
    requires TablesOk(t)
  {
    if Admit(t, id, mark, event).Own?
    then t.(inflight := t.inflight[id := event], flightMarks := t.flightMarks[id := mark]) else t
  }

  function Cleared(t: Tables, id: string): Tables {
    t.(inflight := t.inflight - {id}, flightMarks := t.flightMarks - {id})
  }

  /** Tombstones beyond the bound are dropped, oldest first. */
  function Trim(d: Ordered<string>): (r: Ordered<string>)
    requires OrderedOk(d)
    ensures OrderedOk(r) && |r.keys| <= MAX_GRAVES && r.values.Keys <= d.values.Keys
    ensures |d.keys| <= MAX_GRAVES ==> r == d
    ensures |d.keys| > MAX_GRAVES ==> |r.keys| == MAX_GRAVES
    decreases |d.keys|
  {
    if |d.keys| <= MAX_GRAVES then d
    else
      PopOldestOk(d);
      Trim(PopOldest(d))
  }

  function Buried(t: Tables, id: string, mark: string): Tables
    requires TablesOk(t)
  {
    PutOk(t.graves, id, mark);
    t.(graves := Trim(Put(t.graves, id, mark)))
  }

  /** The oldest response makes room and leaves a tombstone. */
  function Evicted(t: Tables): Tables
    requires TablesOk(t) && t.cache.keys != []
  {
    var oldest := t.cache.keys[0];
    assert oldest in t.cache.values;
    PutOk(t.graves, oldest, t.marks[oldest]);
    t.(cache := PopOldest(t.cache), marks := t.marks - {oldest}, graves := Trim(Put(t.graves, oldest, t.marks[oldest])))
  }

  function Published(t: Tables, id: string, mark: string, result: Value): Tables
    requires TablesOk(t)
  {
    var room := if |t.cache.keys| >= MAX_CACHE then Evicted(t) else t;
    room.(cache := Put(room.cache, id, result), marks := room.marks[id := mark])
  }

  lemma EvictedOk(t: Tables)
    requires TablesOk(t) && t.cache.keys != []
    ensures TablesOk(Evicted(t)) && |Evicted(t).cache.keys| == |t.cache.keys| - 1
    ensures t.cache.keys[0] !in Evicted(t).cache.values
    ensures Evicted(t).cache.values == t.cache.values - {t.cache.keys[0]}
  {
    PopOldestOk(t.cache);
  }

  lemma PublishedOk(t: Tables, id: string, mark: string, result: Value)
    requires TablesOk(t)
    ensures TablesOk(Published(t, id, mark, result))
  {
    if |t.cache.keys| >= MAX_CACHE { EvictedOk(t); }
    PutOk(if |t.cache.keys| >= MAX_CACHE then Evicted(t).cache else t.cache, id, result);
  }

  // -- the server object -------------------------------------------------------------

  class RemoteServer {
    var cache: Ordered<Value>
    var marks: map<string, string>
    var graves: Ordered<string>
    var inflight: map<string, nat>
    var flightMarks: map<string, string>

    function State(): Tables
      reads this
    {
      Tables(cache, marks, graves, inflight, flightMarks)
    }

    ghost predicate Valid()
      reads this
    {
      TablesOk(State())
    }

    constructor ()
      ensures Valid() && State() == Tables(Ordered([], map[]), map[], Ordered([], map[]), map[], map[])
    {
      cache, graves := Ordered([], map[]), Ordered([], map[]);
      marks, inflight, flightMarks := map[], map[], map[];
    }

    /** The first lock region of a request. */
    method Arrive(id: string, mark: string, event: nat) returns (a: Admission)
      requires Valid()
      modifies this
      ensures Valid() && a == Admit(old(State()), id, mark, event) && State() == Admitted(old(State()), id, mark, event)
    {
      var cached := id in cache.values;
      if cached && marks[id] != mark { return Refuse; }
      if !cached && id in graves.values {
        return if graves.values[id] != mark then Refuse else Gone;
      }
      var running := id in inflight;
      var owner := !cached && !running;
      if owner {
        inflight := inflight[id := event];
        flightMarks := flightMarks[id := mark];
      } else if running && flightMarks[id] != mark {
        return Refuse;
      }
      if cached { return Replay(cache.values[id]); }
      return if owner then Own(event) else Wait(inflight[id]);
    }

    /** The entry of a finished or abandoned request goes. */
    method Leave(id: string)
      requires Valid()
      modifies this`inflight, this`flightMarks
      ensures Valid() && State() == Cleared(old(State()), id)
    {
      inflight := inflight - {id};
      flightMarks := flightMarks - {id};
    }

    method TrimGraves()
      requires OrderedOk(graves)
      modifies this`graves
      ensures graves == Trim(old(graves))
    {
      while |graves.keys| > MAX_GRAVES
        invariant OrderedOk(graves) && Trim(graves) == Trim(old(graves))
        decreases |graves.keys|
      {
        PopOldestOk(graves);
        graves := PopOldest(graves);
      }
    }

    /** The lock region of the exception path. */
    method Bury(id: string, mark: string)
      requires Valid()
      modifies this`graves
      ensures Valid() && State() == Buried(old(State()), id, mark)
    {
      PutOk(graves, id, mark);
      graves := Put(graves, id, mark);
      TrimGraves();
    }

    method EvictOldest()
      requires Valid() && cache.keys != []
      modifies this`cache, this`marks, this`graves
      ensures Valid() && State() == Evicted(old(State()))
    {
      EvictedOk(State());
      var oldest := cache.keys[0];
      assert oldest in cache.values;
      var mark := marks[oldest];
      cache, marks := PopOldest(cache), marks - {oldest};
      PutOk(graves, oldest, mark);
      graves := Put(graves, oldest, mark);
      TrimGraves();
    }

    /** The lock region that publishes a result. */
    method Publish(id: string, mark: string, result: Value)
      requires Valid()
      modifies this`cache, this`marks, this`graves
      ensures Valid() && State() == Published(old(State()), id, mark, result)
    {
      PublishedOk(State(), id, mark, result);
      if |cache.keys| >= MAX_CACHE { EvictOldest(); }
      cache := Put(cache, id, result);
      marks := marks[id := mark];
    }
  }
}
