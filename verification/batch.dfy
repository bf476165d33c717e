/** One run of an event handler under React's state model.

    A handler reads every state variable from the render it was created in
    (the snapshot) and each setter call replaces the pending value of its
    variable, so the last write per variable wins.  The context helpers
    `addChatMessage` and `addResponse` build their new lists from the
    snapshot, not from pending writes.  A `Batch` carries the snapshot, the
    pending store, the pending page-local state and an ordered log of what
    the handler did besides writing state. */
module Batch {
  import opened Values
  import opened Session
  import Api

  datatype Event =
    | Emitted(msg: Message)          // an `addChatMessage` call
    | Called(request: Api.Request)   // a request issued to the server
    | Navigated(path: string)        // a `navigate(path)` call

  /** The result of one submission: the committed state, everything the
      handler did in call order, and the two projections of that log read
      most often, the messages handed to `addChatMessage` and the requests
      issued. */
  datatype Outcome<S> = Outcome(state: S, log: seq<Event>, emitted: seq<Message>, requests: seq<Api.Request>)

  /** A handler in progress.  `emitted` and `requests` are kept alongside
      `log` by every operation below, so that they need not be recomputed
      from it. */
  datatype Batch<L> = Batch(
    snapshot: Store, store: Store, local: L,
    log: seq<Event>, emitted: seq<Message>, requests: seq<Api.Request>)
  {
    /** The committed transcript is the snapshot's, followed by the last
        message emitted so far if there is one. */
    ghost predicate Tracks() {
      store.chatHistory == if emitted == [] then snapshot.chatHistory else snapshot.chatHistory + [emitted[|emitted| - 1]]
    }

    /** `addChatMessage(role, content)` with `{role, content}` = `m`. */
    function Emit(m: Message): (b: Batch<L>)
      ensures b.snapshot == snapshot && b.local == local && b.requests == requests
      ensures b.store == store.(chatHistory := snapshot.chatHistory + [m])
      ensures b.log == log + [Emitted(m)]
      ensures b.emitted == emitted + [m]
      ensures b.Tracks()
    {
      Batch(snapshot, store.(chatHistory := AddChatMessage(snapshot, m)), local,
            log + [Emitted(m)], emitted + [m], requests)
    }

    /** `addResponse(question, answer)`. */
    function Record(question: JsText, answer: string): (b: Batch<L>)
      ensures b == this.(store := store.(responses := snapshot.responses + [ResponsePair(question, answer)]))
      ensures Tracks() ==> b.Tracks()
    {
      this.(store := store.(responses := AddResponse(snapshot, question, answer)))
    }

    /** Issues a request to the server. */
    function Call(request: Api.Request): (b: Batch<L>)
      ensures b == this.(log := log + [Called(request)], requests := requests + [request])
      ensures Tracks() ==> b.Tracks()
    {
      this.(log := log + [Called(request)], requests := requests + [request])
    }

    /** `navigate(path)`. */
    function Navigate(path: string): (b: Batch<L>)
      ensures b == this.(log := log + [Navigated(path)])
      ensures Tracks() ==> b.Tracks()
    {
      this.(log := log + [Navigated(path)])
    }

    /** `setIsLoading(v)`. */
    function Loading(v: bool): (b: Batch<L>)
      ensures b == this.(store := store.(isLoading := v))
      ensures Tracks() ==> b.Tracks()
    {
      this.(store := store.(isLoading := v))
    }

    /** `setUserProfile(v)`. */
    function SetProfile(v: Option<Profile>): (b: Batch<L>)
      ensures b == this.(store := store.(userProfile := v))
      ensures Tracks() ==> b.Tracks()
    {
      this.(store := store.(userProfile := v))
    }

    /** `setLifestylePlan(v)`. */
    function SetPlan(v: Option<string>): (b: Batch<L>)
      ensures b == this.(store := store.(lifestylePlan := v))
      ensures Tracks() ==> b.Tracks()
    {
      this.(store := store.(lifestylePlan := v))
    }

    /** Writes to page-local state; `next` replaces the pending value. */
    function Set(next: L): (b: Batch<L>)
      ensures b == this.(local := next)
      ensures Tracks() ==> b.Tracks()
    {
      this.(local := next)
    }

    /** The handler's result once pending state is committed as `state`. */
    function Commit<S>(state: S): Outcome<S> {
      Outcome(state, log, emitted, requests)
    }
  }

  /** A handler starts with nothing pending and an empty log. */
  function Begin<L>(snapshot: Store, local: L): (b: Batch<L>)
    ensures b.snapshot == b.store == snapshot && b.local == local
    ensures b.log == [] && b.emitted == [] && b.requests == []
    ensures b.Tracks()
  {
    Batch(snapshot, snapshot, local, [], [], [])
  }

  /** Calls `addChatMessage` once per message, in order. */
  function EmitAll<L>(b: Batch<L>, ms: seq<Message>): Batch<L>
    decreases |ms|
  {
    if ms == [] then b else EmitAll(b.Emit(ms[0]), ms[1..])
  }

  /** Calls `addResponse` once per pair, in order. */
  function RecordAll<L>(b: Batch<L>, rs: seq<ResponsePair>): Batch<L>
    decreases |rs|
  {
    if rs == [] then b else RecordAll(b.Record(rs[0].question, rs[0].answer), rs[1..])
  }

  /** However many messages one handler emits, the transcript it commits is
      the snapshot plus the last of them: every earlier write is replaced.
      With two or more messages some are therefore lost. */
  lemma {:induction false} EmitAllKeepsLast<L>(b: Batch<L>, ms: seq<Message>)
    requires |ms| >= 1
    ensures EmitAll(b, ms).store.chatHistory == b.snapshot.chatHistory + [ms[|ms| - 1]]
    ensures |ms| >= 2 ==> EmitAll(b, ms).store.chatHistory != b.snapshot.chatHistory + ms
    ensures EmitAll(b, ms).snapshot == b.snapshot
    decreases |ms|
  {
    var b' := b.Emit(ms[0]);
    if |ms| == 1 {
      assert EmitAll(b', ms[1..]) == b';
    } else {
      EmitAllKeepsLast(b', ms[1..]);
      assert ms[1..][|ms[1..]| - 1] == ms[|ms| - 1];
    }
  }

  /** Likewise several `addResponse` calls in one handler leave the captured
      answers plus the last pair only. */
  lemma {:induction false} RecordAllKeepsLast<L>(b: Batch<L>, rs: seq<ResponsePair>)
    requires |rs| >= 1
    ensures RecordAll(b, rs).store.responses == b.snapshot.responses + [rs[|rs| - 1]]
    ensures RecordAll(b, rs).snapshot == b.snapshot
    decreases |rs|
  {
    var b' := b.Record(rs[0].question, rs[0].answer);
    if |rs| == 1 {
      assert RecordAll(b', rs[1..]) == b';
    } else {
      RecordAllKeepsLast(b', rs[1..]);
      assert rs[1..][|rs[1..]| - 1] == rs[|rs| - 1];
    }
  }
}
