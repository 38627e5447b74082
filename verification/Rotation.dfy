/**
 Two-phase rotation of a device credential. Only equality of credentials matters, so a credential
 is a number, stored and compared directly; replacement credentials are fresh.
 */
module Rotation {
  import opened Model

  type Credential = nat

  datatype Slot = Slot(credential: Credential, version: nat, expiresAt: int)

  datatype Device = Device(active: Credential, version: nat, pending: Option<Slot>, revoked: bool)

  /** Five minutes, in seconds. */
  const ROTATION_TTL := 300

  const MAX_VERSION := 0x7fff_ffff_ffff_ffff

  // ---------------------------------------------------------------- the four transactions

  datatype Refusal = Invalid | AlreadyPending | Elapsed | Malformed

  datatype Reply =
    | Changed(device: Device)
    | Confirmed(version: nat)
    | NothingPending
    | Refused(reason: Refusal)
  {
    function Over(before: Device): Device {
      if Changed? then device else before
    }
  }

  predicate Live(pending: Option<Slot>, now: int) {
    pending.Some? && pending.value.expiresAt > now
  }

  function Prepare(d: Device, current: Credential, replacement: Credential, now: int): Reply {
    if current == replacement then Refused(Malformed)
    else if d.revoked || d.active != current then Refused(Invalid)
    else if d.version < 1 || d.version == MAX_VERSION then Refused(Malformed)
    else if Live(d.pending, now) then Refused(AlreadyPending)
    else Changed(d.(pending := Some(Slot(replacement, d.version + 1, now + ROTATION_TTL))))
  }

  /** Promotes the pending credential; a replay of the promoted one succeeds and changes nothing. */
  function Confirm(d: Device, credential: Credential, version: nat, now: int): Reply {
    if version < 2 then Refused(Malformed)
    else if d.revoked then Refused(Invalid)
    else if d.active == credential then (if d.version == version then Confirmed(version) else Refused(Invalid))
    else if d.pending.None? then Refused(Invalid)
    else if d.pending.value.expiresAt <= now then Refused(Elapsed)
    else if d.pending.value.version != version || d.pending.value.credential != credential then Refused(Invalid)
    else Changed(d.(active := credential, version := version, pending := None))
  }

  function Cancel(d: Device, current: Credential): Reply {
    if d.revoked || d.active != current then Refused(Invalid)
    else if d.pending.None? then NothingPending
    else Changed(d.(pending := None))
  }

  function Revoke(d: Device): Reply {
    if d.revoked then Refused(Invalid) else Changed(d.(revoked := true))
  }

  // ---------------------------------------------------------------- the device, the server and the network

  datatype Message =
    | PrepareRequest(bearer: Credential)
    | ConfirmRequest(bearer: Credential, version: nat)
    | CancelRequest(bearer: Credential)
    | Prepared(credential: Credential, version: nat)
    | ConfirmReply(credential: Credential, version: nat)
    | Gone(credential: Credential)
    | Superseded(credential: Credential)

  /**
   `sent` only grows: a message may be lost, delayed and delivered any number of times in any order.
   `closing` holds the promotions that are committed while their handler has yet to close the open
   streams and then to reply. `issued` and `promotions` are history.
   */
  datatype World = World(
    device: Device,
    clock: int,
    sent: set<Message>,
    streams: set<Credential>,
    closing: set<(Credential, nat)>,
    stored: map<Credential, nat>,
    issued: map<Credential, nat>,
    promotions: nat)

  /** A freshly paired device. */
  function Paired(credential: Credential, clock: int): World {
    World(Device(credential, 1, None, false), clock, {}, {}, {}, map[credential := 1], map[credential := 1], 0)
  }

  datatype Move =
    | Tick(seconds: nat)
    // the device
    | AskPrepare(bearer: Credential)
    | AskConfirm(bearer: Credential)
    | AskCancel(bearer: Credential)
    | Keep(credential: Credential, version: nat)
    | SeeConfirm(credential: Credential, version: nat)
    | SeeGone(credential: Credential)
    | SeeSuperseded(credential: Credential)
    // the server
    | HandlePrepare(bearer: Credential, replacement: Credential)
    | HandleConfirm(bearer: Credential, version: nat)
    | RejectExpired(bearer: Credential)
    | HandleCancel(bearer: Credential)
    | Register(bearer: Credential)
    | Revalidate(bearer: Credential)
    | CloseStreams(credential: Credential, version: nat)
    | RevokeDevice

  function Post(w: World, message: Message): World {
    w.(sent := w.sent + {message})
  }

  /** The device asks with a credential it has stored, and confirms with the version it stored. */
  function DoAsk(w: World, move: Move): World {
    match move
    case AskPrepare(bearer) => if bearer in w.stored then Post(w, PrepareRequest(bearer)) else w
    case AskConfirm(bearer) => if bearer in w.stored then Post(w, ConfirmRequest(bearer, w.stored[bearer])) else w
    case AskCancel(bearer) => if bearer in w.stored then Post(w, CancelRequest(bearer)) else w
    case _ => w
  }

  function Newer(stored: map<Credential, nat>, version: nat): map<Credential, nat> {
    map c <- stored | stored[c] >= version :: stored[c]
  }

  /** A replacement for the credential is stored too. */
  predicate HasNewer(stored: map<Credential, nat>, c: Credential) {
    c in stored && exists other <- stored :: stored[other] > stored[c]
  }

  /** What the device may drop, and on which message; on a 4004 only an old credential that has a stored replacement. */
  function DoSee(w: World, move: Move): World {
    match move
    case Keep(c, v) => if Prepared(c, v) in w.sent then w.(stored := w.stored[c := v]) else w
    case SeeConfirm(c, v) => if ConfirmReply(c, v) in w.sent then w.(stored := Newer(w.stored, v)) else w
    case SeeGone(c) => if Gone(c) in w.sent then w.(stored := w.stored - {c}) else w
    case SeeSuperseded(c) =>
      if Superseded(c) in w.sent && HasNewer(w.stored, c) then w.(stored := w.stored - {c}) else w
    case _ => w
  }

  function DoPrepare(w: World, bearer: Credential, replacement: Credential): World {
    var reply := Prepare(w.device, bearer, replacement, w.clock);
    if PrepareRequest(bearer) !in w.sent || replacement in w.issued || !reply.Changed? then w
    else
      var version := reply.device.pending.value.version;
      Post(w, Prepared(replacement, version)).(device := reply.device, issued := w.issued[replacement := version])
  }

  function DoConfirm(w: World, bearer: Credential, version: nat): World {
    if ConfirmRequest(bearer, version) !in w.sent then w
    else
      match Confirm(w.device, bearer, version, w.clock)
      case Changed(device) =>
        w.(device := device, closing := w.closing + {(bearer, version)}, promotions := w.promotions + 1)
      case Confirmed(_) => Post(w, ConfirmReply(bearer, version))
      case Refused(reason) => if reason.Elapsed? then Post(w, Gone(bearer)) else w
      case NothingPending => w
  }

  function DoServe(w: World, move: Move): World {
    match move
    case HandlePrepare(bearer, replacement) => DoPrepare(w, bearer, replacement)
    case HandleConfirm(bearer, version) => DoConfirm(w, bearer, version)
    case RejectExpired(bearer) =>
      if !w.device.revoked && w.device.pending.Some? && w.device.pending.value.credential == bearer
         && w.device.pending.value.expiresAt <= w.clock
      then Post(w, Gone(bearer)) else w
    case HandleCancel(bearer) =>
      if CancelRequest(bearer) in w.sent then w.(device := Cancel(w.device, bearer).Over(w.device)) else w
    case Register(bearer) =>
      if bearer in w.issued && w.issued[bearer] <= w.device.version then w.(streams := w.streams + {bearer}) else w
    case Revalidate(bearer) =>
      if bearer in w.streams && bearer != w.device.active && !w.device.revoked
      then Post(w.(streams := w.streams - {bearer}), Superseded(bearer)) else w
    case CloseStreams(c, v) =>
      if (c, v) !in w.closing then w
      else w.(closing := w.closing - {(c, v)}, streams := {},
              sent := w.sent + {ConfirmReply(c, v)} + set bearer <- w.streams :: Superseded(bearer))
    case RevokeDevice => w.(device := Revoke(w.device).Over(w.device))
    case _ => w
  }

  function Step(w: World, move: Move): World {
    match move
    case Tick(seconds) => w.(clock := w.clock + seconds)
    case AskPrepare(_) => DoAsk(w, move)
    case AskConfirm(_) => DoAsk(w, move)
    case AskCancel(_) => DoAsk(w, move)
    case Keep(_, _) => DoSee(w, move)
    case SeeConfirm(_, _) => DoSee(w, move)
    case SeeGone(_) => DoSee(w, move)
    case SeeSuperseded(_) => DoSee(w, move)
    case _ => DoServe(w, move)
  }

  function Play(w: World, moves: seq<Move>): World
    decreases |moves|
  {
    if moves == [] then w else Step(Play(w, moves[..|moves| - 1]), moves[|moves| - 1])
  }

  // ---------------------------------------------------------------- what every state keeps

  /** Versions count promotions, and a pending version is always the next one. */
  ghost predicate Ordered(w: World) {
    var d := w.device;
    && d.version == 1 + w.promotions && d.version <= MAX_VERSION
    && d.active in w.issued && w.issued[d.active] == d.version
    && (forall c :: c in w.issued ==> w.issued[c] <= MAX_VERSION)
    && (d.pending.Some? ==>
          && d.version < MAX_VERSION
          && d.pending.value.version == d.version + 1
          && d.pending.value.credential in w.issued && w.issued[d.pending.value.credential] == d.version + 1)
  }

  /** The credential was superseded, or never promoted in its turn. */
  predicate Retired(w: World, c: Credential) {
    c in w.issued && w.issued[c] <= w.device.version && c != w.device.active
  }

  /** The credential is not active and can never become so. */
  predicate Dead(w: World, c: Credential) {
    && c in w.issued && c != w.device.active
    && (w.device.pending.Some? && w.device.pending.value.credential == c ==> w.device.pending.value.expiresAt <= w.clock)
  }

  /** What a message in the network says about the state, now and for good. */
  ghost predicate True(w: World, message: Message) {
    match message
    case PrepareRequest(_) => true
    case CancelRequest(_) => true
    case ConfirmRequest(c, v) => c in w.issued && w.issued[c] == v
    case Prepared(c, v) => c in w.issued && w.issued[c] == v
    case ConfirmReply(c, v) => 2 <= v <= w.device.version && (v == w.device.version ==> c == w.device.active)
    case Gone(c) => Dead(w, c)
    case Superseded(c) => Retired(w, c)
  }

  ghost predicate Truthful(w: World) {
    && (forall message :: message in w.sent ==> True(w, message))
    && (forall done :: done in w.closing ==> True(w, ConfirmReply(done.0, done.1)))
    && (forall c :: c in w.stored ==> c in w.issued && w.stored[c] == w.issued[c])
    && (forall c :: c in w.streams ==> c in w.issued && w.issued[c] <= w.device.version)
  }

  predicate Requested(w: World, c: Credential) {
    exists message <- w.sent :: message.ConfirmRequest? && message.bearer == c
  }

  /** The device holds the active credential, and a pending one it has asked to confirm. */
  ghost predicate Covered(w: World) {
    && w.device.active in w.stored
    && (Live(w.device.pending, w.clock) && Requested(w, w.device.pending.value.credential) ==>
          w.device.pending.value.credential in w.stored)
  }

  ghost predicate Good(w: World) {
    Ordered(w) && Truthful(w) && Covered(w)
  }

  /** No stored credential is the active one, although the device is not revoked. */
  predicate LockedOut(w: World) {
    !w.device.revoked && w.device.active !in w.stored
  }

  // ---------------------------------------------------------------- the device's moves

  lemma AskingKeepsGood(w: World, move: Move)
    requires Good(w)
    ensures Good(DoAsk(w, move))
  {
    var t := DoAsk(w, move);
    forall message | message in t.sent ensures True(t, message) {
      if message in w.sent {
        assert True(w, message);
      }
    }
    forall c | Requested(t, c) ensures Requested(w, c) || c in w.stored {}
  }

  lemma SeeingKeepsOrder(w: World, t: World)
    requires Ordered(w) && Truthful(w) && t == w.(stored := t.stored)
    requires forall c :: c in t.stored ==> c in w.issued && t.stored[c] == w.issued[c]
    ensures Ordered(t) && Truthful(t)
  {
    forall message | message in t.sent ensures True(t, message) {
      assert True(w, message);
    }
  }

  lemma SeeingKeepsGood(w: World, move: Move)
    requires Good(w)
    ensures Good(DoSee(w, move))
  {
    var t := DoSee(w, move);
    forall c | c in t.stored ensures c in w.issued && t.stored[c] == w.issued[c] {
      if move.Keep? && Prepared(move.credential, move.version) in w.sent {
        assert True(w, Prepared(move.credential, move.version));
      }
    }
    SeeingKeepsOrder(w, t);
    assert forall c :: Requested(t, c) == Requested(w, c);
    DropsOnlyDead(w, move);
  }

  /** Nothing a truthful message lets the device drop is active or still confirmable. */
  lemma DropsOnlyDead(w: World, move: Move)
    requires Good(w)
    ensures forall c :: c in w.stored && c !in DoSee(w, move).stored ==>
              c != w.device.active && !(Live(w.device.pending, w.clock) && w.device.pending.value.credential == c)
  {
    match move
    case SeeConfirm(c, v) => assert ConfirmReply(c, v) in w.sent ==> True(w, ConfirmReply(c, v));
    case SeeGone(c) => assert Gone(c) in w.sent ==> True(w, Gone(c));
    case SeeSuperseded(c) => assert Superseded(c) in w.sent ==> True(w, Superseded(c));
    case _ =>
  }

  // ---------------------------------------------------------------- the server's moves

  /** What a message says stays true as the device row moves on. */
  lemma TruthStands(w: World, t: World, message: Message)
    requires Ordered(w) && True(w, message)
    requires t.device.version >= w.device.version && t.clock >= w.clock
    requires t.device.version == w.device.version ==> t.device.active == w.device.active
    requires t.device.active == w.device.active
             || (Live(w.device.pending, w.clock) && t.device.active == w.device.pending.value.credential
                 && t.device.version == w.device.version + 1)
    requires t.device.pending.None? || t.device.pending == w.device.pending
             || t.device.pending.value.credential !in w.issued
    requires forall c :: c in w.issued ==> c in t.issued && t.issued[c] == w.issued[c]
    ensures True(t, message)
  {}

  lemma PrepareKeepsGood(w: World, bearer: Credential, replacement: Credential)
    requires Good(w)
    ensures Good(DoPrepare(w, bearer, replacement))
  {
    var t := DoPrepare(w, bearer, replacement);
    if t != w {
      forall message | message in t.sent ensures True(t, message) {
        if message in w.sent {
          TruthStands(w, t, message);
        }
      }
      assert !Requested(w, replacement) by {
        forall message | message in w.sent && message.ConfirmRequest? ensures message.bearer != replacement {
          assert True(w, message);
        }
      }
      assert !Requested(t, replacement);
    }
  }

  lemma ConfirmKeepsGood(w: World, bearer: Credential, version: nat)
    requires Good(w)
    ensures Good(DoConfirm(w, bearer, version))
  {
    var t := DoConfirm(w, bearer, version);
    if ConfirmRequest(bearer, version) in w.sent {
      assert True(w, ConfirmRequest(bearer, version)) && Requested(w, bearer);
      forall message | message in t.sent ensures True(t, message) {
        if message in w.sent {
          TruthStands(w, t, message);
        }
      }
      forall done | done in t.closing ensures True(t, ConfirmReply(done.0, done.1)) {
        if done in w.closing {
          TruthStands(w, t, ConfirmReply(done.0, done.1));
        }
      }
      forall c | Requested(t, c) ensures Requested(w, c) {}
    }
  }

  /** Moves that post one more true message and leave the row to the device alone. */
  lemma ServingKeepsGood(w: World, t: World)
    requires Good(w)
    requires t == w.(device := w.device.(pending := t.device.pending, revoked := t.device.revoked),
                     sent := t.sent, streams := t.streams, closing := t.closing)
    requires t.device.pending.None? || t.device.pending == w.device.pending
    requires w.sent <= t.sent
    requires forall message :: message in t.sent && message !in w.sent ==>
               !message.ConfirmRequest? && True(t, message)
    requires t.closing <= w.closing
    requires forall c :: c in t.streams ==> c in w.issued && w.issued[c] <= w.device.version
    ensures Good(t)
  {
    forall message | message in t.sent ensures True(t, message) {
      if message in w.sent {
        TruthStands(w, t, message);
      }
    }
    forall c | Requested(t, c) ensures Requested(w, c) {}
  }

  /** The one unguarded move: closing the streams after a promotion, whatever bearer they use. */
  predicate Careful(w: World, move: Move) {
    move.CloseStreams? && (move.credential, move.version) in w.closing ==> w.device.active !in w.streams
  }

  lemma OtherServingKeepsGood(w: World, move: Move, t: World)
    requires Good(w) && Careful(w, move) && t == DoServe(w, move)
    requires !move.HandlePrepare? && !move.HandleConfirm?
    ensures Good(t)
  {
    match move
    case RejectExpired(bearer) => ServingKeepsGood(w, t);
    case HandleCancel(bearer) => ServingKeepsGood(w, t);
    case Register(bearer) => ServingKeepsGood(w, t);
    case Revalidate(bearer) => ServingKeepsGood(w, t);
    case CloseStreams(c, v) => ServingKeepsGood(w, t);
    case RevokeDevice => ServingKeepsGood(w, t);
    case _ =>
  }

  lemma TickKeepsGood(w: World, seconds: nat)
    requires Good(w)
    ensures Good(w.(clock := w.clock + seconds))
  {
    var t := w.(clock := w.clock + seconds);
    forall message | message in t.sent ensures True(t, message) {
      TruthStands(w, t, message);
    }
    forall c | Requested(t, c) ensures Requested(w, c) {}
  }

  lemma StepKeepsGood(w: World, move: Move)
    requires Good(w) && Careful(w, move)
    ensures Good(Step(w, move))
  {
    if move.Tick? {
      TickKeepsGood(w, move.seconds);
    } else if move.AskPrepare? || move.AskConfirm? || move.AskCancel? {
      AskingKeepsGood(w, move);
    } else if move.Keep? || move.SeeConfirm? || move.SeeGone? || move.SeeSuperseded? {
      SeeingKeepsGood(w, move);
    } else if move.HandlePrepare? {
      PrepareKeepsGood(w, move.bearer, move.replacement);
    } else if move.HandleConfirm? {
      ConfirmKeepsGood(w, move.bearer, move.version);
    } else {
      OtherServingKeepsGood(w, move, DoServe(w, move));
    }
  }

  // ---------------------------------------------------------------- no lockout

  ghost predicate AlwaysCareful(w: World, moves: seq<Move>) {
    forall k :: 0 <= k < |moves| ==> Careful(Play(w, moves[..k]), moves[k])
  }

  lemma {:induction false} PlayKeepsGood(w: World, moves: seq<Move>)
    requires Good(w) && AlwaysCareful(w, moves)
    ensures Good(Play(w, moves))
    decreases |moves|
  {
    if moves != [] {
      var n := |moves| - 1;
      forall k | 0 <= k < n ensures Careful(Play(w, moves[..n][..k]), moves[..n][k]) {
        assert moves[..n][..k] == moves[..k];
      }
      PlayKeepsGood(w, moves[..n]);
      StepKeepsGood(Play(w, moves[..n]), moves[n]);
    }
  }

  lemma PairedIsGood(credential: Credential, clock: int)
    ensures Good(Paired(credential, clock))
  {}

  /**
   With messages lost, delayed, repeated and reordered in any way, a device that keeps a prepared
   credential before confirming it, and drops the old one only on an observed confirm or a 4004,
   always holds the active credential, provided no stream of the active bearer is closed with 4004.
   */
  lemma NoLockout(credential: Credential, clock: int, moves: seq<Move>)
    requires AlwaysCareful(Paired(credential, clock), moves)
    ensures !LockedOut(Play(Paired(credential, clock), moves))
  {
    PairedIsGood(credential, clock);
    PlayKeepsGood(Paired(credential, clock), moves);
  }

  // ---------------------------------------------------------------- where the code falls short

  lemma PlayNext(w: World, moves: seq<Move>, move: Move)
    ensures Play(w, moves + [move]) == Step(Play(w, moves), move)
  {
    var all := moves + [move];
    assert all[..|all| - 1] == moves;
  }

  ghost predicate Reachable(w: World) {
    exists moves :: w == Play(Paired(0, 0), moves)
  }

  lemma ReachNext(w: World, move: Move)
    requires Reachable(w)
    ensures Reachable(Step(w, move))
  {
    var moves :| w == Play(Paired(0, 0), moves);
    PlayNext(Paired(0, 0), moves, move);
  }

  lemma ReachPrepared() returns (w: World)
    ensures Reachable(w) && w.device == Device(0, 1, Some(Slot(1, 2, ROTATION_TTL)), false) && w.clock == 0
    ensures w.stored == map[0 := 1] && w.issued == map[0 := 1, 1 := 2] && w.streams == {} && Prepared(1, 2) in w.sent
  {
    w := Paired(0, 0);
    assert w == Play(w, []);
    ReachNext(w, AskPrepare(0));
    w := Step(w, AskPrepare(0));
    ReachNext(w, HandlePrepare(0, 1));
    w := Step(w, HandlePrepare(0, 1));
  }

  lemma ReachPromoted() returns (w: World)
    ensures Reachable(w) && w.device == Device(1, 2, None, false) && w.streams == {} && (1, 2) in w.closing
    ensures w.stored == map[0 := 1, 1 := 2] && w.issued == map[0 := 1, 1 := 2] && ConfirmRequest(1, 2) in w.sent
  {
    w := ReachPrepared();
    ReachNext(w, Keep(1, 2));
    w := Step(w, Keep(1, 2));
    ReachNext(w, AskConfirm(1));
    w := Step(w, AskConfirm(1));
    ReachNext(w, HandleConfirm(1, 2));
    w := Step(w, HandleConfirm(1, 2));
  }

  lemma ReachReconnected() returns (w: World)
    ensures Reachable(w) && w.device == Device(1, 2, None, false) && w.streams == {1} && (1, 2) in w.closing
    ensures w.stored == map[1 := 2] && w.issued == map[0 := 1, 1 := 2]
  {
    w := ReachPromoted();
    ReachNext(w, HandleConfirm(1, 2));
    w := Step(w, HandleConfirm(1, 2));
    ReachNext(w, SeeConfirm(1, 2));
    w := Step(w, SeeConfirm(1, 2));
    ReachNext(w, Register(1));
    w := Step(w, Register(1));
  }

  lemma ReachAsked() returns (w: World)
    ensures Reachable(w) && w.device == Device(1, 2, None, false) && w.streams == {1} && (1, 2) in w.closing
    ensures w.stored == map[1 := 2] && w.issued == map[0 := 1, 1 := 2] && PrepareRequest(1) in w.sent
  {
    w := ReachReconnected();
    ReachNext(w, AskPrepare(1));
    w := DoAsk(w, AskPrepare(1));
  }

  lemma ReachRearmed() returns (w: World)
    ensures Reachable(w) && w.device == Device(1, 2, Some(Slot(2, 3, w.clock + ROTATION_TTL)), false)
    ensures w.streams == {1} && (1, 2) in w.closing && w.stored == map[1 := 2, 2 := 3]
    ensures w.issued == map[0 := 1, 1 := 2, 2 := 3]
  {
    w := ReachAsked();
    ReachNext(w, HandlePrepare(1, 2));
    w := DoPrepare(w, 1, 2);
    ReachNext(w, Keep(2, 3));
    w := DoSee(w, Keep(2, 3));
  }

  /** Locked out, and no stored credential can ever become active again. */
  predicate Stranded(w: World) {
    LockedOut(w) && forall c <- w.stored :: Dead(w, c)
  }

  /**
   The streams closed after a promotion include one opened with the promoted bearer while the first
   handler had not got to closing them. A replayed confirm was answered, the device reconnected with the
   promoted credential and stored the replacement of the next rotation; the late 4004 makes it drop the
   promoted credential, which is still the active one. When the replacement expires the device is stranded.
   */
  lemma ClosingTheActiveStreamLocksOut()
    ensures exists w :: Reachable(w) && LockedOut(w)
    ensures exists w :: Reachable(w) && Stranded(w)
  {
    var w := ReachRearmed();
    ReachNext(w, CloseStreams(1, 2));
    w := Step(w, CloseStreams(1, 2));
    assert Superseded(1) in w.sent && w.stored[2] > w.stored[1];
    ReachNext(w, SeeSuperseded(1));
    w := Step(w, SeeSuperseded(1));
    assert LockedOut(w);
    ReachNext(w, Tick(ROTATION_TTL));
    StrandedLater(w);
  }

  lemma StrandedLater(w: World)
    requires LockedOut(w) && w.device.pending.Some? && w.device.pending.value.expiresAt <= w.clock + ROTATION_TTL
    requires forall c :: c in w.stored ==> c in w.issued
    ensures Stranded(Step(w, Tick(ROTATION_TTL)))
  {}

  // -- exactly when it is safe

  /** A continuation that never closes the streams. */
  ghost predicate Follows(t: World, w: World) {
    exists moves :: AlwaysCareful(t, moves) && w == Play(t, moves)
  }

  lemma FollowsItself(t: World)
    ensures Follows(t, t)
  {
    assert AlwaysCareful(t, []) && t == Play(t, []);
  }

  lemma FollowsNext(t: World, w: World, move: Move)
    requires Follows(t, w) && !move.CloseStreams?
    ensures Follows(t, Step(w, move))
  {
    var moves :| AlwaysCareful(t, moves) && w == Play(t, moves);
    PlayNext(t, moves, move);
    var all := moves + [move];
    forall k | 0 <= k < |all| ensures Careful(Play(t, all[..k]), all[k]) {
      if k < |moves| {
        assert all[..k] == moves[..k];
      }
    }
  }

  lemma {:induction false} FreshCredential(issued: map<Credential, nat>) returns (c: Credential)
    ensures forall other :: other in issued ==> other < c
    decreases |issued|
  {
    c := 0;
    if issued != map[] {
      var one :| one in issued;
      assert |issued - {one}| < |issued| by {
        assert (issued - {one}).Keys == issued.Keys - {one};
      }
      var d := FreshCredential(issued - {one});
      c := if d > one then d else one + 1;
      forall other | other in issued ensures other < c {
        assert other == one || other in issued - {one};
      }
    }
  }

  /** The device can wait for a pending replacement to expire and prepare another one. */
  lemma WaitsAndAsks(t: World) returns (w: World)
    requires t.device.active in t.stored && !t.device.revoked
    ensures Follows(t, w) && w == t.(clock := w.clock, sent := t.sent + {PrepareRequest(t.device.active)})
    ensures !Live(w.device.pending, w.clock)
  {
    FollowsItself(t);
    var wait := if Live(t.device.pending, t.clock) then t.device.pending.value.expiresAt - t.clock else 0;
    FollowsNext(t, t, Tick(wait));
    w := Step(t, Tick(wait));
    FollowsNext(t, w, AskPrepare(t.device.active));
    w := Step(w, AskPrepare(t.device.active));
  }

  lemma PreparedStep(w: World, replacement: Credential)
    requires PrepareRequest(w.device.active) in w.sent && replacement !in w.issued && w.device.active in w.issued
    requires !w.device.revoked && 1 <= w.device.version < MAX_VERSION && !Live(w.device.pending, w.clock)
    ensures var t := DoPrepare(w, w.device.active, replacement);
            && Prepared(replacement, w.device.version + 1) in t.sent && w.sent <= t.sent && t.stored == w.stored
            && t.device.active == w.device.active && !t.device.revoked
  {}

  lemma PreparesAgain(t: World) returns (w: World, replacement: Credential)
    requires Ordered(t) && t.device.active in t.stored && !t.device.revoked && t.device.version < MAX_VERSION
    ensures Follows(t, w) && replacement !in t.issued && t.sent <= w.sent
    ensures Prepared(replacement, t.device.version + 1) in w.sent
    ensures w.device.active == t.device.active != replacement && !w.device.revoked && w.stored == t.stored
  {
    var active := t.device.active;
    w := WaitsAndAsks(t);
    replacement := FreshCredential(w.issued);
    FollowsNext(t, w, HandlePrepare(active, replacement));
    PreparedStep(w, replacement);
    w := DoPrepare(w, active, replacement);
  }

  // -- a rotation can always be completed

  /** The next version is active, nothing is pending, and the device holds it and nothing older. */
  ghost predicate Rotated(t: World, w: World) {
    && !w.device.revoked && w.device.version == t.device.version + 1 && w.device.pending.None?
    && w.device.active !in t.issued && w.device.active in w.stored
    && forall c :: c in w.stored ==> w.stored[c] >= w.device.version
  }

  /** Wait until nothing is pending, ask for a replacement and get it. */
  function Replaced(t: World, wait: nat, c: Credential): World {
    var active := t.device.active;
    Step(Step(Step(t, Tick(wait)), AskPrepare(active)), HandlePrepare(active, c))
  }

  /** Store the replacement and confirm it. */
  function Promoted(w: World, c: Credential, v: nat): World {
    Step(Step(Step(w, Keep(c, v)), AskConfirm(c)), HandleConfirm(c, v))
  }

  /** Repeat the confirm, and drop what is older when it is answered. */
  function Tidied(w: World, c: Credential, v: nat): World {
    Step(Step(w, HandleConfirm(c, v)), SeeConfirm(c, v))
  }

  lemma ReplacedHas(t: World, wait: nat, c: Credential, w: World)
    requires t.device.active in t.stored && t.device.active in t.issued && c !in t.issued && !t.device.revoked
    requires 1 <= t.device.version < MAX_VERSION && !Live(t.device.pending, t.clock + wait) && w == Replaced(t, wait, c)
    ensures Prepared(c, t.device.version + 1) in w.sent
    ensures w.device == t.device.(pending := Some(Slot(c, t.device.version + 1, w.clock + 300)))
  {}

  lemma PromotedHas(w: World, c: Credential, v: nat, u: World)
    requires !w.device.revoked && Prepared(c, v) in w.sent && v >= 2 && c != w.device.active
    requires w.device.pending == Some(Slot(c, v, w.clock + 300)) && u == Promoted(w, c, v)
    ensures u.device == Device(c, v, None, false) && c in u.stored && u.stored[c] == v && ConfirmRequest(c, v) in u.sent
  {}

  lemma TidiedHas(w: World, c: Credential, v: nat, u: World)
    requires w.device == Device(c, v, None, false) && v >= 2 && c in w.stored && w.stored[c] == v
    requires ConfirmRequest(c, v) in w.sent && u == Tidied(w, c, v)
    ensures u.device == w.device && c in u.stored && forall other :: other in u.stored ==> u.stored[other] >= v
  {}

  lemma ThreeFollow(t: World, w: World, one: Move, two: Move, three: Move)
    requires Follows(t, w) && !one.CloseStreams? && !two.CloseStreams? && !three.CloseStreams?
    ensures Follows(t, Step(Step(Step(w, one), two), three))
  {
    FollowsNext(t, w, one);
    FollowsNext(t, Step(w, one), two);
    FollowsNext(t, Step(Step(w, one), two), three);
  }

  lemma RotationFollows(t: World, wait: nat, c: Credential, v: nat)
    ensures Follows(t, Tidied(Promoted(Replaced(t, wait, c), c, v), c, v))
  {
    FollowsItself(t);
    var active := t.device.active;
    var w := Replaced(t, wait, c);
    ThreeFollow(t, t, Tick(wait), AskPrepare(active), HandlePrepare(active, c));
    var u := Promoted(w, c, v);
    ThreeFollow(t, w, Keep(c, v), AskConfirm(c), HandleConfirm(c, v));
    FollowsNext(t, u, HandleConfirm(c, v));
    FollowsNext(t, Step(u, HandleConfirm(c, v)), SeeConfirm(c, v));
  }

  /** Once nothing is pending any more, eight moves carry out a whole rotation. */
  lemma RotatesOnce(t: World, wait: nat, c: Credential, v: nat)
    requires Ordered(t) && t.device.active in t.stored && c !in t.issued && !t.device.revoked
    requires v == t.device.version + 1 <= MAX_VERSION && !Live(t.device.pending, t.clock + wait)
    ensures Rotated(t, Tidied(Promoted(Replaced(t, wait, c), c, v), c, v))
  {
    var w := Replaced(t, wait, c);
    ReplacedHas(t, wait, c, w);
    var u := Promoted(w, c, v);
    PromotedHas(w, c, v, u);
    TidiedHas(u, c, v, Tidied(u, c, v));
  }

  /** From every careful state of a device that is not revoked, a whole rotation can still be carried out. */
  lemma RotationStaysPossible(credential: Credential, clock: int, moves: seq<Move>, t: World)
    requires AlwaysCareful(Paired(credential, clock), moves) && t == Play(Paired(credential, clock), moves)
    requires !t.device.revoked && t.device.version < MAX_VERSION
    ensures exists w :: Follows(t, w) && Rotated(t, w)
  {
    PairedIsGood(credential, clock);
    PlayKeepsGood(Paired(credential, clock), moves);
    var wait := if Live(t.device.pending, t.clock) then t.device.pending.value.expiresAt - t.clock else 0;
    var c := FreshCredential(t.issued);
    RotatesOnce(t, wait, c, t.device.version + 1);
    RotationFollows(t, wait, c, t.device.version + 1);
  }

  /** Once a 4004 for the active bearer is under way, the next rotation may lock the device out. */
  lemma LateNoticeLocksOut(t: World)
    requires Ordered(t) && t.device.active in t.stored && t.stored[t.device.active] == t.device.version
    requires !t.device.revoked && t.device.version < MAX_VERSION && Superseded(t.device.active) in t.sent
    ensures exists w :: Follows(t, w) && LockedOut(w)
  {
    var c, replacement := PreparesAgain(t);
    FollowsNext(t, c, Keep(replacement, t.device.version + 1));
    var d := Step(c, Keep(replacement, t.device.version + 1));
    DropsTheActive(t, c, d, replacement);
    FollowsNext(t, d, SeeSuperseded(t.device.active));
  }

  lemma DropsTheActive(t: World, c: World, d: World, replacement: Credential)
    requires d == c.(stored := c.stored[replacement := t.device.version + 1])
    requires c.device.active == t.device.active != replacement && !c.device.revoked && c.stored == t.stored
    requires t.device.active in t.stored && t.stored[t.device.active] == t.device.version
    requires Superseded(t.device.active) in c.sent
    ensures LockedOut(Step(d, SeeSuperseded(t.device.active)))
  {
    assert d.stored[replacement] > d.stored[t.device.active];
  }

  /** At the last version no replacement can exist, so no notice makes the device drop its credential. */
  ghost predicate Last(w: World) {
    && Ordered(w) && w.device.version == MAX_VERSION && w.device.active in w.stored
    && (forall c :: c in w.stored ==> c in w.issued && w.stored[c] == w.issued[c])
    && (forall message :: message in w.sent ==>
          && (message.Gone? ==> message.credential != w.device.active)
          && (message.ConfirmReply? ==> message.version <= MAX_VERSION)
          && (message.Prepared? ==> message.credential in w.issued && w.issued[message.credential] == message.version))
    && (forall done :: done in w.closing ==> done.1 <= MAX_VERSION)
  }

  lemma LastSees(w: World, move: Move)
    requires Last(w)
    ensures Last(DoSee(w, move))
  {
    var active := w.device.active;
    match move
    case Keep(c, v) => assert Prepared(c, v) in w.sent ==> w.issued[c] == v;
    case SeeConfirm(c, v) => assert ConfirmReply(c, v) in w.sent ==> v <= MAX_VERSION;
    case SeeGone(c) => assert Gone(c) in w.sent ==> c != active;
    case SeeSuperseded(c) => assert !HasNewer(w.stored, active);
    case _ =>
  }

  lemma LastServes(w: World, move: Move)
    requires Last(w)
    ensures Last(DoServe(w, move))
  {
    match move
    case HandlePrepare(bearer, replacement) =>
    case HandleConfirm(bearer, version) =>
    case RejectExpired(bearer) =>
    case HandleCancel(bearer) =>
    case Register(bearer) =>
    case Revalidate(bearer) =>
    case CloseStreams(c, v) =>
      if (c, v) in w.closing {
        assert (c, v).1 <= MAX_VERSION;
      }
    case RevokeDevice =>
    case _ =>
  }

  lemma LastAsks(w: World, move: Move)
    requires Last(w)
    ensures Last(DoAsk(w, move))
  {}

  lemma {:induction false} LastForGood(w: World, moves: seq<Move>)
    requires Last(w)
    ensures Last(Play(w, moves))
    decreases |moves|
  {
    if moves != [] {
      var n := |moves| - 1;
      LastForGood(w, moves[..n]);
      var m := Play(w, moves[..n]);
      LastAsks(m, moves[n]);
      LastSees(m, moves[n]);
      LastServes(m, moves[n]);
    }
  }

  lemma ClosingKeepsLast(w: World, c: Credential, v: nat)
    requires Good(w) && w.device.version == MAX_VERSION
    ensures Last(Step(w, CloseStreams(c, v)))
  {
    forall message | message in w.sent ensures True(w, message) {}
    assert Last(w);
    LastServes(w, CloseStreams(c, v));
  }

  /**
   Exactly when closing the streams is safe: no careful continuation locks the device out if and only
   if none of the streams being closed uses the active bearer, or there can be no further rotation.
   */
  lemma ClosingIsSafeIff(w: World, c: Credential, v: nat)
    requires Good(w) && !w.device.revoked && (c, v) in w.closing
    ensures w.device.active !in w.streams || w.device.version == MAX_VERSION <==>
              forall moves :: AlwaysCareful(Step(w, CloseStreams(c, v)), moves) ==>
                !LockedOut(Play(Step(w, CloseStreams(c, v)), moves))
  {
    var t := Step(w, CloseStreams(c, v));
    if w.device.active !in w.streams {
      StepKeepsGood(w, CloseStreams(c, v));
      forall moves | AlwaysCareful(t, moves) ensures !LockedOut(Play(t, moves)) {
        PlayKeepsGood(t, moves);
      }
    } else if w.device.version == MAX_VERSION {
      ClosingKeepsLast(w, c, v);
      forall moves | AlwaysCareful(t, moves) ensures !LockedOut(Play(t, moves)) {
        LastForGood(t, moves);
      }
    } else {
      assert Superseded(w.device.active) in t.sent;
      LateNoticeLocksOut(t);
    }
  }

  // ---------------------------------------------------------------- credential history

  /** Nothing brings a superseded credential back, and versions never go back. */
  lemma ConfirmKeepsRetired(w: World, bearer: Credential, version: nat, t: World)
    requires Ordered(w) && t == DoConfirm(w, bearer, version)
    ensures Ordered(t) && t.device.version >= w.device.version
    ensures forall c :: Retired(w, c) ==> Retired(t, c)
  {}

  lemma PrepareKeepsRetired(w: World, bearer: Credential, replacement: Credential, t: World)
    requires Ordered(w) && t == DoPrepare(w, bearer, replacement)
    ensures Ordered(t) && t.device.version >= w.device.version
    ensures forall c :: Retired(w, c) ==> Retired(t, c)
  {}

  lemma OtherMovesKeepRow(w: World, move: Move)
    requires !move.HandlePrepare? && !move.HandleConfirm?
    ensures var t := Step(w, move);
            && t.device.active == w.device.active && t.device.version == w.device.version
            && (t.device.pending.None? || t.device.pending == w.device.pending)
            && t.issued == w.issued && t.promotions == w.promotions
  {
    match move
    case HandleCancel(bearer) =>
    case RevokeDevice =>
    case _ =>
  }

  lemma StepKeepsRetired(w: World, move: Move)
    requires Ordered(w)
    ensures Ordered(Step(w, move)) && Step(w, move).device.version >= w.device.version
    ensures forall c :: Retired(w, c) ==> Retired(Step(w, move), c)
  {
    if move.HandlePrepare? {
      PrepareKeepsRetired(w, move.bearer, move.replacement, Step(w, move));
    } else if move.HandleConfirm? {
      ConfirmKeepsRetired(w, move.bearer, move.version, Step(w, move));
    } else {
      OtherMovesKeepRow(w, move);
    }
  }

  lemma {:induction false} RetiredForGood(w: World, moves: seq<Move>)
    requires Ordered(w)
    ensures Ordered(Play(w, moves)) && Play(w, moves).device.version >= w.device.version
    ensures forall c :: Retired(w, c) ==> Retired(Play(w, moves), c)
    decreases |moves|
  {
    if moves != [] {
      var n := |moves| - 1;
      RetiredForGood(w, moves[..n]);
      StepKeepsRetired(Play(w, moves[..n]), moves[n]);
    }
  }

  /** In every run the key version is one plus the number of promotions, and a pending version is the next one. */
  lemma {:induction false} VersionsCountPromotions(credential: Credential, clock: int, moves: seq<Move>)
    ensures var w := Play(Paired(credential, clock), moves);
            && w.device.version == 1 + w.promotions
            && (w.device.pending.Some? ==> w.device.pending.value.version == w.device.version + 1)
  {
    RetiredForGood(Paired(credential, clock), moves);
  }

  lemma {:induction false} PlayJoins(w: World, before: seq<Move>, later: seq<Move>)
    ensures Play(w, before + later) == Play(Play(w, before), later)
    decreases |later|
  {
    if later == [] {
      assert before + later == before;
    } else {
      var n := |later| - 1;
      PlayJoins(w, before, later[..n]);
      assert before + later == (before + later[..n]) + [later[n]];
      PlayNext(w, before + later[..n], later[n]);
    }
  }

  /**
   A credential that was active and is not any more is never accepted again: not as a bearer, not
   for a new preparation, not by a confirmation with any version.
   */
  lemma SupersededIsNeverAccepted(credential: Credential, clock: int, before: seq<Move>, later: seq<Move>, c: Credential,
                                  replacement: Credential, version: nat, now: int)
    requires Play(Paired(credential, clock), before).device.active == c
    requires Play(Paired(credential, clock), before + later).device.active != c
    ensures forall more :: var d := Play(Paired(credential, clock), before + later + more).device;
              && d.active != c
              && Prepare(d, c, replacement, now).Refused?
              && Confirm(d, c, version, now).Refused?
              && Cancel(d, c).Refused?
  {
    var start := Paired(credential, clock);
    var w, t := Play(start, before), Play(start, before + later);
    RetiredForGood(start, before);
    PlayJoins(start, before, later);
    RetiredForGood(w, later);
    ReplacedIsRetired(w, later);
    forall more
      ensures var d := Play(start, before + later + more).device;
              d.active != c && Prepare(d, c, replacement, now).Refused? && Confirm(d, c, version, now).Refused?
              && Cancel(d, c).Refused?
    {
      PlayJoins(start, before + later, more);
      RetiredForGood(t, more);
      RetiredIsRefused(Play(t, more), c, replacement, version, now);
    }
  }

  lemma RetiredIsRefused(w: World, c: Credential, replacement: Credential, version: nat, now: int)
    requires Ordered(w) && Retired(w, c)
    ensures var d := w.device;
            d.active != c && Prepare(d, c, replacement, now).Refused? && Confirm(d, c, version, now).Refused?
            && Cancel(d, c).Refused?
  {}

  lemma StepReplaces(w: World, move: Move)
    requires Ordered(w)
    ensures Step(w, move).device.active != w.device.active ==> Retired(Step(w, move), w.device.active)
  {
    if !move.HandlePrepare? && !move.HandleConfirm? {
      OtherMovesKeepRow(w, move);
    }
  }

  lemma {:induction false} ReplacedIsRetired(w: World, moves: seq<Move>)
    requires Ordered(w)
    ensures var t := Play(w, moves); t.device.active != w.device.active ==> Retired(t, w.device.active)
    decreases |moves|
  {
    if moves != [] {
      var n := |moves| - 1;
      ReplacedIsRetired(w, moves[..n]);
      RetiredForGood(w, moves[..n]);
      StepKeepsRetired(Play(w, moves[..n]), moves[n]);
      StepReplaces(Play(w, moves[..n]), moves[n]);
    }
  }

  /** Every confirm that was answered, or is about to be, promoted the active credential or an older one. */
  ghost predicate Honoured(w: World) {
    && (forall message :: message in w.sent && message.ConfirmReply? ==> True(w, message))
    && (forall done :: done in w.closing ==> True(w, ConfirmReply(done.0, done.1)))
  }

  lemma StepKeepsHonoured(w: World, move: Move)
    requires Ordered(w) && Honoured(w)
    ensures Honoured(Step(w, move))
  {
    var t := Step(w, move);
    if move.HandleConfirm? {
      ConfirmKeepsHonoured(w, move.bearer, move.version, t);
    } else if move.HandlePrepare? {
      assert t.device.active == w.device.active && t.device.version == w.device.version;
    } else {
      OtherMovesKeepRow(w, move);
      OtherMovesReply(w, move);
    }
  }

  lemma ConfirmKeepsHonoured(w: World, bearer: Credential, version: nat, t: World)
    requires Ordered(w) && Honoured(w) && t == DoConfirm(w, bearer, version)
    ensures Honoured(t)
  {
    forall c, v | True(w, ConfirmReply(c, v)) ensures True(t, ConfirmReply(c, v)) {}
  }

  lemma OtherMovesReply(w: World, move: Move)
    requires !move.HandlePrepare? && !move.HandleConfirm?
    ensures Step(w, move).closing <= w.closing
    ensures forall message :: message in Step(w, move).sent && message.ConfirmReply? ==>
              message in w.sent || (message.credential, message.version) in w.closing
  {
    match move
    case CloseStreams(c, v) =>
    case RejectExpired(bearer) =>
    case Revalidate(bearer) =>
    case _ =>
  }

  lemma {:induction false} PlayKeepsHonoured(w: World, moves: seq<Move>)
    requires Ordered(w) && Honoured(w)
    ensures Honoured(Play(w, moves))
    decreases |moves|
  {
    if moves != [] {
      var n := |moves| - 1;
      PlayKeepsHonoured(w, moves[..n]);
      RetiredForGood(w, moves[..n]);
      StepKeepsHonoured(Play(w, moves[..n]), moves[n]);
    }
  }

  /** In every run: until a later promotion, replaying a confirm that was answered succeeds again and changes nothing. */
  lemma ReplayedConfirmIsHarmless(credential: Credential, clock: int, moves: seq<Move>, c: Credential, v: nat, now: int)
    requires var w := Play(Paired(credential, clock), moves);
             ConfirmReply(c, v) in w.sent && v == w.device.version && !w.device.revoked
    ensures var d := Play(Paired(credential, clock), moves).device;
            Confirm(d, c, v, now) == Confirmed(v) && Confirm(d, c, v, now).Over(d) == d
  {
    var w := Play(Paired(credential, clock), moves);
    PlayKeepsHonoured(Paired(credential, clock), moves);
    assert True(w, ConfirmReply(c, v));
  }
}
