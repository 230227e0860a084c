/** What a handler saved is what everyone reads back, through encoding, decoding, re-encoding and decoding again. */
module ReadYourWrites {
  import opened Values
  import opened InstanceKey
  import opened TaskModel
  import opened TaskTrace
  import opened Programs

  /**
   * The codec law for one state that encodes: its encoding decodes to it and is not the value that stands for an absent
   * cell, unless the state is that value too.
   */
  predicate RoundTrips(codec: Codec, s: Json) {
    codec.encodeState(s).Some? ==>
      var raw := codec.encodeState(s).value;
      if raw == JNull then s == JNull else codec.decodeState(raw) == Some(s)
  }

  /** The state an instance was last saved with, unless nothing was saved or it was purged since. */
  function LastSaved(t: seq<Step>, key: string): Option<Json> {
    if t == [] then None
    else
      var s := t[|t| - 1];
      if s.PutState? && s.key == key then Some(s.state)
      else if s.Wipe? && s.key == key then None
      else LastSaved(t[..|t| - 1], key)
  }

  function OrNull(state: Option<Json>): Json { if state.Some? then state.value else JNull }

  /** No other registered name shares a key with `name`. */
  predicate Unshared(reg: Registry, name: string) {
    name in reg && forall n <- reg :: n != name ==> !Names(n, name) && !Names(name, n)
  }

  /** What the storage cell holds when `state` was saved last. */
  predicate Holds(codec: Codec, i: Snapshot, state: Option<Json>) {
    if STATE_KEY in i.storage then state.Some? && codec.encodeState(state.value) == Some(i.storage[STATE_KEY])
    else state == None
  }

  lemma {:induction false} CellHoldsLastSaved(reg: Registry, t: seq<Step>, name: string, id: string)
    requires Unshared(reg, name) && AllProper(reg, t)
    ensures Holds(reg[name].codec, At(Replay(EMPTY, t), Key(name, id)), LastSaved(t, Key(name, id)))
    decreases |t|
  {
    if t != [] {
      var init, s := t[..|t| - 1], t[|t| - 1];
      assert t == init + [s];
      assert s in t && Proper(reg, s);
      ReplayLast(EMPTY, init, s);
      CellHoldsLastSaved(reg, init, name, id);
      CellFollows(reg, Replay(EMPTY, init), s, LastSaved(init, Key(name, id)), name, id);
    }
  }

  lemma CellFollows(reg: Registry, w: World, s: Step, before: Option<Json>, name: string, id: string)
    requires Unshared(reg, name) && Proper(reg, s)
    requires Holds(reg[name].codec, At(w, Key(name, id)), before)
    ensures var mine := !s.Pass? && s.key == Key(name, id);
            Holds(reg[name].codec, At(Apply(w, s), Key(name, id)),
                  if mine && s.PutState? then Some(s.state) else if mine && s.Wipe? then None else before)
  {
    if s.PutState? && s.key == Key(name, id) {
      var n :| n in reg && Names(n, s.key) && reg[n].codec.encodeState(s.state) == Some(s.raw);
      NamesItsKeys(name, id);
      NamesShared(n, name, s.key);
    }
  }

  /** What every way to read the state of an instance answers: its own handlers, its siblings, and external callers. */
  ghost predicate EveryoneReads(reg: Registry, w: World, name: string, id: string, state: Json) {
    && (forall ctx: Ctx, fuel: nat | ctx.name in reg && ctx.name == name && ctx.id == id ::
          Perform(reg, w, ctx, Recall, fuel) == Ends(w, Value(state)))
    && (forall ctx: Ctx, fuel: nat | ctx.name in reg ::
          Perform(reg, w, ctx, GetStateOf(name, id), fuel) == Opened(w, Key(name, id), Value(state)))
    && (forall fuel: nat :: Invoke(reg, w, GetState(name, id), fuel) == Opened(w, Key(name, id), Value(state)))
  }

  /** A handler context is built, and nothing else happens. */
  function Opened(w: World, key: string, r: Result): Outcome { Outcome(Apply(w, Open(key)), r, [Open(key)]) }

  /** What is held is recalled if and only if the law holds for it; then it is also what a reader outside receives. */
  lemma HeldIsRead(codec: Codec, i: Snapshot, state: Option<Json>, unreadable: Err)
    requires Holds(codec, i, state)
    ensures RecallFrom(codec, i) == Value(OrNull(state)) <==> state.None? || RoundTrips(codec, state.value)
    ensures (state.Some? ==> RoundTrips(codec, state.value)) ==>
              Receive(codec, HandleGetState(codec, i), unreadable) == Value(OrNull(state))
  {
  }

  /**
   * At every moment of every run, for a task that shares no key with another one, ctx.recall answers the state last
   * saved by any handler of the instance, or null after a purge or when nothing was saved, if and only if the codec law
   * holds for that one state; and then every sibling's getState and every external getState answer it too, and change
   * nothing but to create a missing instance.
   */
  lemma EveryoneReadsLastSaved(reg: Registry, calls: seq<Call>, fuel: nat, moment: nat, ctx: Ctx)
    requires Unshared(reg, ctx.name) && moment <= |Serve(reg, EMPTY, calls, fuel).trace|
    ensures var t := Serve(reg, EMPTY, calls, fuel).trace[..moment];
            var w, state := Replay(EMPTY, t), LastSaved(t, ctx.Instance());
            var lawful := state.Some? ==> RoundTrips(reg[ctx.name].codec, state.value);
            && (Perform(reg, w, ctx, Recall, fuel) == Ends(w, Value(OrNull(state))) <==> lawful)
            && (lawful ==> EveryoneReads(reg, w, ctx.name, ctx.id, OrNull(state)))
  {
    var t, key, codec := Serve(reg, EMPTY, calls, fuel).trace[..moment], ctx.Instance(), reg[ctx.name].codec;
    var w := Replay(EMPTY, t);
    ServeFaithful(reg, EMPTY, calls, fuel);
    assert AllProper(reg, t);
    CellHoldsLastSaved(reg, t, ctx.name, ctx.id);
    HeldIsRead(codec, At(w, key), LastSaved(t, key), TaskExecutionError(SchemaError));
    HeldIsRead(codec, At(w, key), LastSaved(t, key), TaskError(SchemaMismatch));
    assert At(Apply(w, Open(key)), key) == At(w, key);
  }

  /** A save or update is refused exactly when its state cannot be encoded, and then changes nothing. */
  predicate Stores(codec: Codec, w: World, key: string, o: Outcome, state: Json) {
    if codec.encodeState(state).Some?
    then o.result == Value(JNull) && o.trace == [PutState(key, state, codec.encodeState(state).value)]
    else o.result == Failure(TaskError(SchemaMismatch)) && o.trace == [] && o.world == w
  }

  /**
   * At every moment of every run, ctx.update saves the function of the state last saved, when the codec law holds for
   * that one state, and does nothing at all when there is none.
   */
  lemma UpdateTransformsLastSaved(reg: Registry, calls: seq<Call>, fuel: nat, moment: nat, ctx: Ctx, fn: Json -> Json)
    requires Unshared(reg, ctx.name) && moment <= |Serve(reg, EMPTY, calls, fuel).trace|
    requires var state := LastSaved(Serve(reg, EMPTY, calls, fuel).trace[..moment], ctx.Instance());
             state.Some? ==> RoundTrips(reg[ctx.name].codec, state.value)
    ensures var t := Serve(reg, EMPTY, calls, fuel).trace[..moment];
            var w, key := Replay(EMPTY, t), ctx.Instance();
            var o, state := Perform(reg, w, ctx, Update(fn), fuel), LastSaved(t, key);
            && (OrNull(state) == JNull ==> o == Ends(w, Value(JNull)))
            && (OrNull(state) != JNull ==> Stores(reg[ctx.name].codec, w, key, o, fn(state.value)))
            && LastSaved(t + o.trace, key) == if o.trace != [] then Some(fn(OrNull(state))) else state
  {
    EveryoneReadsLastSaved(reg, calls, fuel, moment, ctx);
    var t := Serve(reg, EMPTY, calls, fuel).trace[..moment];
    var o := Perform(reg, Replay(EMPTY, t), ctx, Update(fn), fuel);
    if o.trace == [] {
      assert t + o.trace == t;
    } else {
      assert (t + o.trace)[|t + o.trace| - 1] == o.trace[0];
    }
  }

  /**
   * In any table ctx.save stores the encoded state or is refused, and what it stored is recalled as the state that was
   * saved if and only if the law holds for it.
   */
  lemma LawIsNeeded(reg: Registry, w: World, ctx: Ctx, s: Json, fuel: nat)
    requires ctx.name in reg
    ensures var codec, o := reg[ctx.name].codec, Perform(reg, w, ctx, Save(s), fuel);
            && Stores(codec, w, ctx.Instance(), o, s)
            && (codec.encodeState(s).Some? ==>
                  (Perform(reg, o.world, ctx, Recall, fuel).result == Value(s) <==> RoundTrips(codec, s)))
  {
    var codec, key := reg[ctx.name].codec, ctx.Instance();
    if codec.encodeState(s).Some? {
      var put := PutState(key, s, codec.encodeState(s).value);
      assert At(Perform(reg, w, ctx, Save(s), fuel).world, key) == Change(At(w, key), put);
    }
  }

  // ----- States that cannot be read -----

  /** How a stored value fails its readers; None when it does not. */
  datatype Trouble = NoneAtAll | Undecodable | Unencodable | WireUndecodable

  function TroubleWith(codec: Codec, raw: Json): Trouble {
    if raw == JNull then NoneAtAll
    else if codec.decodeState(raw).None? then Undecodable
    else
      var s := codec.decodeState(raw).value;
      if s == JNull then NoneAtAll
      else if codec.encodeState(s).None? then Unencodable
      else
        var wire := codec.encodeState(s).value;
        if wire == JNull || codec.decodeState(wire).Some? then NoneAtAll else WireUndecodable
  }

  /**
   * A stored value that does not decode is a schema mismatch to ctx.recall and ctx.update; readers outside are told of
   * it, or of a state that cannot be encoded again, by an execution error, which a sibling sees wrapped, and of a wire
   * value that does not decode by a schema error of their own. Otherwise all readers outside get one value.
   */
  lemma UnreadableIsReported(reg: Registry, w: World, ctx: Ctx, reader: Ctx, fn: Json -> Json, fuel: nat)
    requires ctx.name in reg && reader.name in reg
    ensures var codec := reg[ctx.name].codec;
            var trouble := TroubleWith(codec, Read(At(w, ctx.Instance()), STATE_KEY));
            var outside := Invoke(reg, w, GetState(ctx.name, ctx.id), fuel).result;
            var sibling := Perform(reg, w, reader, GetStateOf(ctx.name, ctx.id), fuel).result;
            var refused := Ends(w, Failure(TaskError(SchemaMismatch)));
            && (trouble.Undecodable? <==> Perform(reg, w, ctx, Recall, fuel) == refused)
            && (trouble.Undecodable? ==> Perform(reg, w, ctx, Update(fn), fuel) == refused)
            && outside == (match trouble
                           case NoneAtAll => sibling
                           case Undecodable => Failure(TaskExecutionError(TaskError(SchemaMismatch)))
                           case _ => Failure(TaskExecutionError(SchemaError)))
            && (trouble.NoneAtAll? <==> sibling.Value?)
            && (trouble.Undecodable? || trouble.Unencodable? ==>
                  sibling == Failure(TaskError(SiblingGetState(outside.e))))
            && (trouble.WireUndecodable? ==> sibling == Failure(TaskError(SchemaMismatch)))
  {
    assert At(Apply(w, Open(ctx.Instance())), ctx.Instance()) == At(w, ctx.Instance());
  }

  /** A task that is not registered is reported by its name, exactly then, and the table stays as it is. */
  lemma UnknownTasksAreReported(reg: Registry, w: World, ctx: Ctx, name: string, id: string, event: Json, fuel: nat)
    requires ctx.name in reg
    ensures var unknown := Failure(TaskError(NotFound(name)));
            && (name !in reg <==> Perform(reg, w, ctx, GetStateOf(name, id), fuel).result == unknown)
            && (name !in reg <==> Perform(reg, w, ctx, SendTo(name, id, event), fuel).result == unknown)
            && (name !in reg ==>
                  && Perform(reg, w, ctx, GetStateOf(name, id), fuel) == Ends(w, unknown)
                  && Perform(reg, w, ctx, SendTo(name, id, event), fuel) == Ends(w, unknown)
                  && Invoke(reg, w, GetState(name, id), fuel) == Ends(w, Failure(TaskExecutionError(unknown.e))))
  {
  }

  // ----- Tasks that save only what round-trips -----

  /** Saving only states that satisfy the codec law of the task. */
  ghost function LawfulSaves(reg: Registry): (string, Op) -> bool {
    (name: string, op: Op) =>
      name in reg ==>
        && (op.Save? ==> RoundTrips(reg[name].codec, op.state))
        && (op.Update? ==> forall s: Json :: RoundTrips(reg[name].codec, op.fn(s)))
  }

  ghost function LawfulStep(reg: Registry): Step -> bool {
    (s: Step) => s.PutState? ==> exists n :: n in reg && Names(n, s.key) && RoundTrips(reg[n].codec, s.state)
  }

  lemma LawfulSavesKeep(reg: Registry, now: int)
    ensures Keeps(reg, LawfulSaves(reg), LawfulStep(reg), now)
  {
    forall w: World, ctx: Ctx, op: Op ensures TakesGood(reg, LawfulSaves(reg), LawfulStep(reg), now, w, ctx, op) {
      NamesItsKeys(ctx.name, ctx.id);
    }
  }

  lemma {:induction false} LastSavedIsLawful(reg: Registry, t: seq<Step>, name: string, id: string)
    requires Unshared(reg, name) && AllGood(t, LawfulStep(reg)) && LastSaved(t, Key(name, id)).Some?
    ensures RoundTrips(reg[name].codec, LastSaved(t, Key(name, id)).value)
    decreases |t|
  {
    var s := t[|t| - 1];
    if s.PutState? && s.key == Key(name, id) {
      assert LawfulStep(reg)(s);
      var n :| n in reg && Names(n, s.key) && RoundTrips(reg[n].codec, s.state);
      NamesItsKeys(name, id);
      NamesShared(n, name, s.key);
    } else {
      LastSavedIsLawful(reg, t[..|t| - 1], name, id);
    }
  }

  /**
   * Where every handler saves only states that satisfy its task's codec law, everyone reads the state last saved, or
   * null, at every moment of every run.
   */
  lemma LawfulTasksReadBack(reg: Registry, calls: seq<Call>, fuel: nat, moment: nat, name: string, id: string)
    requires Unshared(reg, name) && TasksOnly(reg, LawfulSaves(reg), fuel)
    requires moment <= |Serve(reg, EMPTY, calls, fuel).trace|
    ensures var t := Serve(reg, EMPTY, calls, fuel).trace[..moment];
            var w, state := Replay(EMPTY, t), OrNull(LastSaved(t, Key(name, id)));
            EveryoneReads(reg, w, name, id, state)
  {
    var t := Serve(reg, EMPTY, calls, fuel).trace[..moment];
    LawfulSavesKeep(reg, 0);
    RunsKeepGood(reg, EMPTY, calls, fuel, LawfulSaves(reg), LawfulStep(reg), 0);
    EveryoneReadsLastSaved(reg, calls, fuel, moment, Ctx(name, id, None));
    if LastSaved(t, Key(name, id)).Some? {
      LastSavedIsLawful(reg, t, name, id);
    }
  }
}
