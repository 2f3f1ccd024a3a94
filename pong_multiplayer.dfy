/** The pure multiplayer bookkeeping of src/pong.rs: what `connect_state` keeps
    of the id request, the side and the start test `waiting_state` derives from
    a game-context reply, and the waiting screen's tick counter. The websocket
    calls themselves are outside the model; only their outcomes come in. */
module PongMultiplayer {
  import opened Int32
  import opened Wrappers
  import opened PongTypes

  /** A successful `srv_get_id`: the player id and session id from the server. */
  datatype IdReply = IdReply(id: u32, session: u32)

  /** The two fields of a successful `srv_get_ctx` reply that the client reads. */
  datatype CtxReply = CtxReply(leftId: u32, rightId: u32)

  /** `MultiplayerContext`; `connected` stands for `ws.is_some()`. */
  datatype MultiplayerContext = MultiplayerContext(connected: bool, id: u32, session: u32,
                                     side: Option<ScreenSide>)

  /** `MultiplayerContext::default()`. */
  const NO_MULTIPLAYER := MultiplayerContext(false, 0, 0, None)

  /** `connect_state` on the multiplayer context. A missing socket is opened
      (`srv_connect`, which panics when the connection fails, hence the
      precondition); a successful id request replaces id and session; the side
      is not touched. */
  function ConnectUpdate(mp: MultiplayerContext, socketOpens: bool, idReply: Option<IdReply>): (r: MultiplayerContext)
    requires mp.connected || socketOpens
    ensures r.connected
    ensures idReply.Some? ==> r.id == idReply.value.id && r.session == idReply.value.session
    ensures idReply.None? ==> r.id == mp.id && r.session == mp.session
    ensures r.side == mp.side
  {
    var mp1 := mp.(connected := true);
    match idReply
    case Some(reply) => mp1.(id := reply.id, session := reply.session)
    case None => mp1
  }

  /** Side derivation: our id in the left slot makes us Left, otherwise our id in
      the right slot makes us Right (so Left wins when both slots hold it), and an
      id in neither slot leaves the side as it was. */
  function DeriveSide(ctx: CtxReply, id: u32, side: Option<ScreenSide>): (r: Option<ScreenSide>)
    ensures r == Some(Left) <==> ctx.leftId == id || (ctx.rightId != id && side == Some(Left))
    ensures r == Some(Right) <==>
              (ctx.leftId != id && ctx.rightId == id) ||
              (ctx.leftId != id && ctx.rightId != id && side == Some(Right))
    ensures ctx.leftId != id && ctx.rightId != id ==> r == side
  {
    if ctx.leftId == id then Some(Left)
    else if ctx.rightId == id then Some(Right)
    else side
  }

  /** Deriving the side twice from the same reply changes nothing more, and a
      reply in which exactly one slot holds our id assigns that slot's side
      whatever the side was before. */
  lemma DeriveSideSettles(ctx: CtxReply, id: u32, side: Option<ScreenSide>)
    ensures DeriveSide(ctx, id, DeriveSide(ctx, id, side)) == DeriveSide(ctx, id, side)
    ensures ctx.leftId == id && ctx.rightId != id ==> DeriveSide(ctx, id, side) == Some(Left)
    ensures ctx.leftId != id && ctx.rightId == id ==> DeriveSide(ctx, id, side) == Some(Right)
  {
  }

  /** Both players have been given ids: neither slot holds the `u32::MAX` sentinel. */
  predicate BothPlayersConnected(ctx: CtxReply)
  {
    ctx.leftId != U32_MAX && ctx.rightId != U32_MAX
  }

  /** What a game-context reply does to the multiplayer context in `waiting_state`:
      a failed request changes nothing, a reply updates the side and nothing else. */
  function CtxUpdate(mp: MultiplayerContext, ctxReply: Option<CtxReply>): (r: MultiplayerContext)
    ensures r.(side := mp.side) == mp
    ensures ctxReply.None? ==> r == mp
    ensures ctxReply.Some? ==> r.side == DeriveSide(ctxReply.value, mp.id, mp.side)
  {
    match ctxReply
    case None => mp
    case Some(ctx) => mp.(side := DeriveSide(ctx, mp.id, mp.side))
  }

  /** The animation frames of the waiting screen. */
  const WAITING_MESSAGES: seq<string> := ["Waiting .  ", "Waiting  . ", "Waiting   ."]

  /** Ticks each waiting message stays on screen (one second at 60 frames per second). */
  const TICKS_PER_MESSAGE: nat := 60

  /** The counter wraps after every message has been shown for its ticks. */
  const WAITING_CYCLE: nat := |WAITING_MESSAGES| * TICKS_PER_MESSAGE

  /** One tick of the waiting screen's counter. */
  datatype WaitingTick = WaitingTick(message: string, counter: nat, sendRequest: bool)

  /** The message drawn is chosen by the counter before it advances; the counter
      then advances modulo the cycle, and a context request is due exactly when the
      new counter starts a message. */
  function WaitingCounterTick(counter: nat): (r: WaitingTick)
    requires counter < WAITING_CYCLE
    ensures counter / TICKS_PER_MESSAGE < |WAITING_MESSAGES|
    ensures r.message == WAITING_MESSAGES[counter / TICKS_PER_MESSAGE]
    ensures r.counter < WAITING_CYCLE
    ensures r.counter == 0 <==> counter == WAITING_CYCLE - 1
    ensures r.counter != 0 ==> r.counter == counter + 1
    ensures r.sendRequest <==> r.counter % TICKS_PER_MESSAGE == 0
  {
    var next := (counter + 1) % WAITING_CYCLE;
    WaitingTick(WAITING_MESSAGES[counter / TICKS_PER_MESSAGE], next, next % TICKS_PER_MESSAGE == 0)
  }

  /** The counter after `n` ticks of the waiting screen, starting from 0. */
  function CounterAfter(n: nat): (c: nat)
    ensures c < WAITING_CYCLE
  {
    if n == 0 then 0 else WaitingCounterTick(CounterAfter(n - 1)).counter
  }

  /** How many of the first `n` waiting ticks send a context request. */
  function RequestsAfter(n: nat): nat
  {
    if n == 0 then 0
    else RequestsAfter(n - 1) + if WaitingCounterTick(CounterAfter(n - 1)).sendRequest then 1 else 0
  }

  /** The counter is the number of waiting ticks modulo the cycle. */
  lemma {:induction false} CounterAfterIsTicksMod(n: nat)
    ensures CounterAfter(n) == n % WAITING_CYCLE
  {
    if n > 0 {
      CounterAfterIsTicksMod(n - 1);
      ModSucc(n - 1);
    }
  }

  lemma ModSucc(m: nat)
    ensures (m % WAITING_CYCLE + 1) % WAITING_CYCLE == (m + 1) % WAITING_CYCLE
  {
    assert WAITING_CYCLE == 180;
    var q, r := m / 180, m % 180;
    assert m == 180 * q + r;
    if r < 179 {
      assert m + 1 == 180 * q + (r + 1);
    } else {
      assert m + 1 == 180 * (q + 1);
    }
  }

  /** A context request goes out once every 60 ticks: after `n` ticks exactly
      `n / 60` requests have been sent. */
  lemma {:induction false} RequestsOncePerMessage(n: nat)
    ensures RequestsAfter(n) == n / TICKS_PER_MESSAGE
  {
    if n > 0 {
      RequestsOncePerMessage(n - 1);
      CounterAfterIsTicksMod(n);
      var c := CounterAfter(n);
      assert c == WaitingCounterTick(CounterAfter(n - 1)).counter;
      CycleModMessage(n);
      DivStep(n);
    }
  }

  /** Reducing modulo the cycle keeps the position within a message. */
  lemma CycleModMessage(n: nat)
    ensures (n % WAITING_CYCLE) % TICKS_PER_MESSAGE == n % TICKS_PER_MESSAGE
  {
    var q, r := n / 180, n % 180;
    assert n == 180 * q + r;
    assert n == 60 * (3 * q + r / 60) + r % 60;
  }

  lemma DivStep(n: nat)
    requires n > 0
    ensures n / 60 == (n - 1) / 60 + if n % 60 == 0 then 1 else 0
  {
    var q, r := n / 60, n % 60;
    assert n == 60 * q + r;
    if r == 0 {
      assert n - 1 == 60 * (q - 1) + 59;
    } else {
      assert n - 1 == 60 * q + (r - 1);
    }
  }
}
