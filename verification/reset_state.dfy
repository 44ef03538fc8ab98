/**
 The traffic-reset widget as values: the component's fields as one `State`, the
 replies of its three HTTP endpoints as datatypes, and every step of the component
 (field initialisation, cookie check, operator classification, snapshot mapping,
 the poll loops, the primary-action dispatch and unsubscription) as a function
 from the old state to the new one. The class in module ResetComponent is proved
 to follow these functions; the lemmas here state what the steps guarantee.
 */
module ResetState {

  datatype Option<T> = None | Some(value: T)

  // Literals of the operator check the component compares against.
  const SomeOperator: string := "someOperator"
  const StatusSuccess: string := "success"

  /** The `state` of a subscription as the component distinguishes it: the six literals it
      compares against, and every other string, which no branch of the component tells apart. */
  datatype SubState =
    | RequestedForCreation
    | WaitingForTariffication
    | Active
    | SubscriberOnHold
    | TarifficationError
    | SubscriptionExpired
    | Unrecognised

  /** A stored subscription handle: never assigned (undefined), still delivering, or closed
      (unsubscribed, or its stream ended with an error). */
  datatype Handle = Absent | Live | Closed

  /** The session fields: set by checkAuth and checkOperator. */
  datatype Session = Session(loggedIn: bool, isOperatorUser: bool, operatorError: bool)

  /** The subscription fields: set by the snapshot mapping. */
  datatype SubFlags = SubFlags(
    noSubOrExpired: bool,
    subIsWaitingForTariffication: bool,
    subIsActive: bool,
    subIsInHold: bool,
    subTarifficationError: bool)

  /** The presentation fields. */
  datatype Ui = Ui(loading: bool, error: bool, checked: bool)

  /** Every field of the component that the subscription logic reads or writes. */
  datatype State = State(
    session: Session,
    sub: SubFlags,
    ui: Ui,
    subscription: Handle,
    createSubscriptionSub: Handle)

  /** Answer of `GET operator`: a transport failure, or the body. */
  datatype OperatorReply = OperatorRequestFailed | OperatorResponse(status: string, operator: string)

  /** Answer of one `GET trafficreset/subscriptions/last`: a transport failure, or the body
      whose `data` is null (None) or carries a subscription state. */
  datatype PollReply = PollRequestFailed | LastSubscription(data: Option<SubState>)

  /** Answer of `POST trafficreset/subscriptions`. */
  datatype CreateReply = CreateRequestFailed | CreateResponse(success: bool)

  /** What a click on the primary button asks of the outside world. */
  datatype Action = GoToLogin | OpenPersonal | CreateSubscription | OpenHome

  /** The two poll loops differ only in their stop predicate and in the handle they run under. */
  datatype StopRule = AfterInit | AfterCreation

  /** How a poll loop ended: never started, still running when the replies ran out,
      stopped by its predicate, ended by a failed request, or already unsubscribed. */
  datatype PollEnd = NotStarted | Running | Stopped | Errored | Unsubscribed

  datatype PollOutcome = PollOutcome(state: State, end: PollEnd, consumed: nat)

  datatype ClickOutcome = ClickOutcome(actions: seq<Action>, poll: PollOutcome)

  /** The four subscription statuses that have a flag of their own. */
  datatype Status = Waiting | SubActive | InHold | TarifficationFailed

  /** The fields as they are when the component is constructed: all undefined, i.e. falsy. */
  function Initial(): State
  {
    State(Session(false, false, false), SubFlags(false, false, false, false, false),
          Ui(false, false, false), Absent, Absent)
  }

  // ---------------------------------------------------------------------------
  // Steps of the component

  function InitFields(s: State): State
  {
    s.(session := s.session.(loggedIn := false, operatorError := false),
       ui := s.ui.(loading := false, error := false))
  }

  function CheckAuth(s: State, cookiePresent: bool): State
  {
    s.(session := s.session.(loggedIn := cookiePresent))
  }

  /** checkOperator: the new state and the value it returns. A successful answer decides
      isOperatorUser and clears operatorError; any other answer raises operatorError and
      keeps isOperatorUser. */
  function CheckOperator(s: State, status: string, operator: string): (State, bool)
  {
    var success := status == StatusSuccess;
    var t := s.(session := s.session.(
                  isOperatorUser := if success then operator == SomeOperator else s.session.isOperatorUser,
                  operatorError := !success));
    (t, t.session.isOperatorUser)
  }

  /** The literal the server sends for each distinguished state. */
  function StateName(st: SubState): string
    requires st != Unrecognised
  {
    match st
    case RequestedForCreation => "REQUESTED_FOR_CREATION"
    case WaitingForTariffication => "WAITING_FOR_TARIFFICATION"
    case Active => "ACTIVE"
    case SubscriberOnHold => "DISCONNECTED_BY_SUBSCRIBER_ON_HOLD"
    case TarifficationError => "DISCONNECTED_BY_TARIFFICATION_ERROR"
    case SubscriptionExpired => "DISCONNECTED_BY_SUBSCRIPTION_EXPIRED"
  }

  /** How the component reads a `state` string: by comparison with the six literals. */
  function ParseState(name: string): SubState
  {
    if name == "REQUESTED_FOR_CREATION" then RequestedForCreation
    else if name == "WAITING_FOR_TARIFFICATION" then WaitingForTariffication
    else if name == "ACTIVE" then Active
    else if name == "DISCONNECTED_BY_SUBSCRIBER_ON_HOLD" then SubscriberOnHold
    else if name == "DISCONNECTED_BY_TARIFFICATION_ERROR" then TarifficationError
    else if name == "DISCONNECTED_BY_SUBSCRIPTION_EXPIRED" then SubscriptionExpired
    else Unrecognised
  }

  /** checkActiveSubscription: clears loading, error and the four status flags, then sets the
      flag its if-else chain selects for the state (the chain's tests are exclusive). */
  function CheckActiveSubscription(s: State, state: SubState): State
  {
    s.(ui := s.ui.(loading := false, error := false),
       sub := s.sub.(
         subIsWaitingForTariffication := state == RequestedForCreation || state == WaitingForTariffication,
         subIsActive := state == Active,
         subIsInHold := state == SubscriberOnHold,
         subTarifficationError := state == TarifficationError))
  }

  /** The map applied to every polled answer body. */
  function MapSnapshot(s: State, data: Option<SubState>): State
  {
    var noSub := data.None? || data.value == SubscriptionExpired;
    if noSub then s.(sub := s.sub.(noSubOrExpired := true))
    else CheckActiveSubscription(s.(sub := s.sub.(noSubOrExpired := false)), data.value)
  }

  function Cancel(h: Handle): Handle
  {
    if h == Live then Closed else h
  }

  function Unsub(s: State): State
  {
    s.(subscription := Cancel(s.subscription), createSubscriptionSub := Cancel(s.createSubscriptionSub))
  }

  predicate ShouldStop(s: State, rule: StopRule)
  {
    match rule
    case AfterInit =>
      s.sub.subIsActive || s.sub.subIsInHold || s.sub.subTarifficationError || s.sub.noSubOrExpired
    case AfterCreation =>
      s.sub.subIsActive || s.sub.subIsInHold || s.sub.subTarifficationError
  }

  function LoopHandle(s: State, rule: StopRule): Handle
  {
    match rule
    case AfterInit => s.subscription
    case AfterCreation => s.createSubscriptionSub
  }

  /** An error notification on a loop's stream: the loop started by ngOnInit has no error
      callback; the one started by openLink has one that clears loading and raises error. */
  function StreamError(s: State, rule: StopRule): State
  {
    match rule
    case AfterInit => s.(subscription := Closed)
    case AfterCreation => s.(ui := s.ui.(loading := false, error := true), createSubscriptionSub := Closed)
  }

  /** The poll loop fed with the successive replies `rs` of the 10-second timer. */
  function PollRun(s: State, rule: StopRule, rs: seq<PollReply>): (o: PollOutcome)
    ensures o.consumed <= |rs|
    ensures o.end == Unsubscribed <==> LoopHandle(s, rule) != Live
    ensures o.end == Running ==> o.consumed == |rs|
    ensures o.end != NotStarted
    decreases |rs|
  {
    if LoopHandle(s, rule) != Live then PollOutcome(s, Unsubscribed, 0)
    else if rs == [] then PollOutcome(s, Running, 0)
    else
      match rs[0]
      case PollRequestFailed => PollOutcome(StreamError(s, rule), Errored, 1)
      case LastSubscription(data) =>
        var t := MapSnapshot(s, data);
        if ShouldStop(t, rule) then PollOutcome(Unsub(t), Stopped, 1)
        else
          var o := PollRun(t, rule, rs[1..]);
          o.(consumed := o.consumed + 1)
  }

  /** ngOnInit, with the cookie, the operator answer and the poll answers as inputs. */
  function OnInit(s: State, cookiePresent: bool, op: OperatorReply, rs: seq<PollReply>): PollOutcome
  {
    var a := CheckAuth(InitFields(s), cookiePresent);
    if !a.session.loggedIn then PollOutcome(a, NotStarted, 0)
    else
      var b := a.(subscription := Live);
      match op
      case OperatorRequestFailed => PollOutcome(StreamError(b, AfterInit), NotStarted, 0)
      case OperatorResponse(status, operator) =>
        var c := CheckOperator(b, status, operator);
        if c.1 then PollRun(c.0, AfterInit, rs)
        else PollOutcome(StreamError(c.0, AfterInit), NotStarted, 0)
  }

  /** The synchronous part of openLink: its four guarded branches, in order. No branch writes
      a field that a later guard reads, so every guard is evaluated on the state before the
      click; the login and home branches each flip `checked`. */
  function Dispatch(s: State): (State, seq<Action>)
  {
    var se, sf := s.session, s.sub;
    var login := !se.loggedIn || (se.loggedIn && se.operatorError);
    var personal := se.loggedIn && !se.isOperatorUser && !se.operatorError;
    var create := se.loggedIn && se.isOperatorUser
                  && (sf.noSubOrExpired || sf.subIsInHold || sf.subTarifficationError);
    var home := se.loggedIn && se.isOperatorUser && sf.subIsActive;
    var a1 := if login then [GoToLogin] else [];
    var a2 := if personal then a1 + [OpenPersonal] else a1;
    var a3 := if create then a2 + [CreateSubscription] else a2;
    var a4 := if home then a3 + [OpenHome] else a3;
    (s.(ui := s.ui.(checked := (s.ui.checked != login) != home, loading := s.ui.loading || create),
        createSubscriptionSub := if create then Live else s.createSubscriptionSub),
     a4)
  }

  /** The creation request's answer, then the poll loop it starts when `success` is true.
      Once the creation handle is no longer live (unsub ran), the answer reaches no callback. */
  function CreationReply(s: State, reply: CreateReply, rs: seq<PollReply>): PollOutcome
  {
    if s.createSubscriptionSub != Live then PollOutcome(s, Unsubscribed, 0)
    else
    match reply
    case CreateResponse(success) =>
      if success then PollRun(s, AfterCreation, rs)
      else PollOutcome(StreamError(s, AfterCreation), Errored, 0)
    case CreateRequestFailed => PollOutcome(StreamError(s, AfterCreation), Errored, 0)
  }

  function OpenLink(s: State, reply: CreateReply, rs: seq<PollReply>): ClickOutcome
  {
    var d := Dispatch(s);
    if CreateSubscription in d.1 then ClickOutcome(d.1, CreationReply(d.0, reply, rs))
    else ClickOutcome(d.1, PollOutcome(d.0, NotStarted, 0))
  }

  // ---------------------------------------------------------------------------
  // Reference definitions the steps are compared with

  /** The state table the snapshot mapping implements. */
  const StateTable: map<SubState, Status> := map[
    RequestedForCreation := Waiting,
    WaitingForTariffication := Waiting,
    Active := SubActive,
    SubscriberOnHold := InHold,
    TarifficationError := TarifficationFailed]

  predicate Flag(f: SubFlags, st: Status)
  {
    match st
    case Waiting => f.subIsWaitingForTariffication
    case SubActive => f.subIsActive
    case InHold => f.subIsInHold
    case TarifficationFailed => f.subTarifficationError
  }

  /** No two of the four status flags are set together. */
  predicate AtMostOneStatus(f: SubFlags)
  {
    !(f.subIsWaitingForTariffication && (f.subIsActive || f.subIsInHold || f.subTarifficationError))
    && !(f.subIsActive && (f.subIsInHold || f.subTarifficationError))
    && !(f.subIsInHold && f.subTarifficationError)
  }

  /** An invariant that every state reachable by ngOnInit and clicks satisfies (it also
      admits some combinations that cannot be reached). */
  predicate Consistent(s: State)
  {
    AtMostOneStatus(s.sub)
    && !(s.sub.noSubOrExpired && s.sub.subIsActive)
    && !(s.session.isOperatorUser && s.session.operatorError)
  }

  /** Whether a poll answer ends the loop under `rule`, judged from the answer alone. */
  predicate Decisive(rule: StopRule, r: PollReply)
  {
    match r
    case PollRequestFailed => true
    case LastSubscription(data) =>
      match rule
      case AfterInit =>
        data.None? || data.value in {SubscriptionExpired, Active, SubscriberOnHold, TarifficationError}
      case AfterCreation =>
        data.Some? && data.value in {Active, SubscriberOnHold, TarifficationError}
  }

  /** A body that the mapping turns into noSubOrExpired: null data or an expired state. */
  predicate EmptySnapshot(r: PollReply)
  {
    r.LastSubscription? && (r.data.None? || r.data.value == SubscriptionExpired)
  }

  /** Position of the first decisive answer, or |rs| when there is none. */
  function FirstDecisive(rule: StopRule, rs: seq<PollReply>): (k: nat)
    ensures k <= |rs|
    ensures forall j :: 0 <= j < k ==> !Decisive(rule, rs[j])
    ensures k < |rs| ==> Decisive(rule, rs[k])
  {
    if rs == [] then 0
    else if Decisive(rule, rs[0]) then 0
    else 1 + FirstDecisive(rule, rs[1..])
  }

  // ---------------------------------------------------------------------------
  // Properties

  /** After initFields and checkAuth, loading, error and operatorError are false and loggedIn
      reflects the cookie; nothing else moves. */
  lemma InitAndAuth(s: State, cookiePresent: bool)
    ensures var t := CheckAuth(InitFields(s), cookiePresent);
      !t.ui.loading && !t.ui.error && !t.session.operatorError && t.session.loggedIn == cookiePresent
      && t.session.isOperatorUser == s.session.isOperatorUser && t.ui.checked == s.ui.checked
      && t.sub == s.sub && t.subscription == s.subscription
      && t.createSubscriptionSub == s.createSubscriptionSub
  {
  }

  /** checkOperator: on success operatorError is cleared and the user is an operator user
      exactly for the one affiliated operator; otherwise operatorError is raised and
      isOperatorUser is kept. The returned value is always the new isOperatorUser. */
  lemma OperatorClassification(s: State, status: string, operator: string)
    ensures var (t, isOp) := CheckOperator(s, status, operator);
      isOp == t.session.isOperatorUser
      && (status == StatusSuccess ==>
            !t.session.operatorError && (t.session.isOperatorUser <==> operator == SomeOperator))
      && (status != StatusSuccess ==>
            t.session.operatorError && t.session.isOperatorUser == s.session.isOperatorUser)
      && t.session.loggedIn == s.session.loggedIn
      && t.sub == s.sub && t.ui == s.ui
      && t.subscription == s.subscription && t.createSubscriptionSub == s.createSubscriptionSub
  {
  }

  /** Reading the literal of a distinguished state gives that state back; every other string
      reads as Unrecognised. */
  lemma ParseStateName(st: SubState, name: string)
    ensures st != Unrecognised ==> ParseState(StateName(st)) == st
    ensures ParseState(name) == Unrecognised <==>
      forall known: SubState :: known != Unrecognised ==> name != StateName(known)
  {
    if ParseState(name) != Unrecognised {
      assert name == StateName(ParseState(name));
    }
  }

  /** A null body or an expired subscription raises noSubOrExpired and changes nothing else. */
  lemma NoSubscriptionSnapshot(s: State, data: Option<SubState>)
    requires data.None? || data.value == SubscriptionExpired
    ensures var t := MapSnapshot(s, data);
      t.sub == s.sub.(noSubOrExpired := true)
      && t.session == s.session && t.ui == s.ui
      && t.subscription == s.subscription && t.createSubscriptionSub == s.createSubscriptionSub
  {
  }

  /** Any other state clears noSubOrExpired, loading and error, and sets each status flag
      exactly when the state table maps the state to that status: at most one flag,
      and none for a state the table does not know. */
  lemma SnapshotFollowsStateTable(s: State, state: SubState)
    requires state != SubscriptionExpired
    ensures var t := MapSnapshot(s, Some(state));
      !t.sub.noSubOrExpired && !t.ui.loading && !t.ui.error
      && (forall st: Status :: Flag(t.sub, st) <==> state in StateTable && StateTable[state] == st)
      && AtMostOneStatus(t.sub)
      && t.session == s.session && t.ui.checked == s.ui.checked
      && t.subscription == s.subscription && t.createSubscriptionSub == s.createSubscriptionSub
  {
  }

  /** Mapping a snapshot never leaves two status flags set. */
  lemma SnapshotKeepsStatusExclusive(s: State, data: Option<SubState>)
    requires AtMostOneStatus(s.sub)
    ensures AtMostOneStatus(MapSnapshot(s, data).sub)
  {
  }

  /** One answer decides a loop that has not yet met its stop predicate exactly when
      `Decisive` says so. */
  lemma StopMatchesDecisive(s: State, rule: StopRule, data: Option<SubState>)
    requires !ShouldStop(s, rule)
    ensures ShouldStop(MapSnapshot(s, data), rule) <==> Decisive(rule, LastSubscription(data))
  {
  }

  /** The poll loop, started where its predicate does not yet hold, consumes the answers up
      to and including the first decisive one: it keeps polling through waiting or unknown
      states (and, after creation, through null or expired ones), stops on the decisive
      snapshot, ends on a failed request, and is still running when no answer is decisive. */
  lemma {:induction false} PollStopsAtFirstDecisive(s: State, rule: StopRule, rs: seq<PollReply>)
    requires LoopHandle(s, rule) == Live && !ShouldStop(s, rule)
    ensures var o, k := PollRun(s, rule, rs), FirstDecisive(rule, rs);
      (k == |rs| ==> o.end == Running && o.consumed == |rs|)
      && (k < |rs| ==> o.consumed == k + 1
                       && o.end == (if rs[k].PollRequestFailed? then Errored else Stopped))
    decreases |rs|
  {
    if rs != [] {
      match rs[0]
      case PollRequestFailed =>
      case LastSubscription(data) =>
        StopMatchesDecisive(s, rule, data);
        var t := MapSnapshot(s, data);
        if !ShouldStop(t, rule) {
          PollStopsAtFirstDecisive(t, rule, rs[1..]);
          var k' := FirstDecisive(rule, rs[1..]);
          assert FirstDecisive(rule, rs) == k' + 1;
          if k' < |rs[1..]| {
            assert rs[1..][k'] == rs[k' + 1];
          }
        }
    }
  }

  /** A loop entered while its stop predicate already holds (a creation loop started from the
      in-hold or tariffication-error state, whose flag is still set) ends on its first answer
      exactly when that answer fails, is decisive, or is null or expired, since the mapping of
      an empty answer leaves the stale flag set. Otherwise the mapped state no longer satisfies
      the predicate and the loop goes on as PollStopsAtFirstDecisive describes. */
  lemma PollEnteredStopped(s: State, rule: StopRule, rs: seq<PollReply>)
    requires LoopHandle(s, rule) == Live && ShouldStop(s, rule) && |rs| > 0
    ensures var o := PollRun(s, rule, rs);
      ((o.end != Running && o.consumed == 1) <==>
         (rs[0].PollRequestFailed? || Decisive(rule, rs[0]) || EmptySnapshot(rs[0])))
    ensures !(rs[0].PollRequestFailed? || Decisive(rule, rs[0]) || EmptySnapshot(rs[0])) ==>
      var t := MapSnapshot(s, rs[0].data);
      var o := PollRun(t, rule, rs[1..]);
      LoopHandle(t, rule) == Live && !ShouldStop(t, rule)
      && PollRun(s, rule, rs) == o.(consumed := o.consumed + 1)
  {
  }

  /** A loop that stops has cancelled every handle it could: both stored handles are no
      longer live. */
  lemma {:induction false} StoppedLoopCancelsHandles(s: State, rule: StopRule, rs: seq<PollReply>)
    ensures var o := PollRun(s, rule, rs);
      o.end == Stopped ==> o.state.subscription != Live && o.state.createSubscriptionSub != Live
    decreases |rs|
  {
    if LoopHandle(s, rule) == Live && rs != [] && rs[0].LastSubscription? {
      var t := MapSnapshot(s, rs[0].data);
      if !ShouldStop(t, rule) {
        StoppedLoopCancelsHandles(t, rule, rs[1..]);
      }
    }
  }

  /** After creation from the in-hold state, a null first answer stops the loop at once,
      because the stale subIsInHold still satisfies the creation stop predicate; both
      noSubOrExpired and subIsInHold are then set. */
  lemma StaleHoldStopsCreationPoll(s: State, rs: seq<PollReply>)
    requires s.createSubscriptionSub == Live && s.sub.subIsInHold
    requires |rs| > 0 && rs[0] == LastSubscription(None)
    ensures var o := PollRun(s, AfterCreation, rs);
      o.end == Stopped && o.consumed == 1 && o.state.sub.noSubOrExpired && o.state.sub.subIsInHold
  {
  }

  /** The poll loop keeps the flags consistent and never touches the session flags or
      `checked`, provided the subscription was not already active when it started. */
  lemma {:induction false} PollKeepsConsistent(s: State, rule: StopRule, rs: seq<PollReply>)
    requires Consistent(s) && !s.sub.subIsActive
    ensures var t := PollRun(s, rule, rs).state;
      Consistent(t) && t.session == s.session && t.ui.checked == s.ui.checked
    decreases |rs|
  {
    if LoopHandle(s, rule) == Live && rs != [] && rs[0].LastSubscription? {
      var data := rs[0].data;
      var t := MapSnapshot(s, data);
      SnapshotKeepsStatusExclusive(s, data);
      if !ShouldStop(t, rule) {
        PollKeepsConsistent(t, rule, rs[1..]);
      }
    }
  }

  /** Without the session cookie ngOnInit starts no request and no loop, and leaves the
      handles as they were. */
  lemma NoSessionNoPolling(s: State, op: OperatorReply, rs: seq<PollReply>)
    ensures var o := OnInit(s, false, op, rs);
      o.end == NotStarted && o.consumed == 0 && !o.state.session.loggedIn
      && o.state.subscription == s.subscription
      && o.state.createSubscriptionSub == s.createSubscriptionSub
  {
  }

  /** On a freshly constructed component, ngOnInit starts the poll loop exactly when the
      cookie is present and the operator check succeeded for the affiliated operator; an
      operator answer with a non-success status raises operatorError and starts nothing. */
  lemma OperatorGatesPolling(cookiePresent: bool, op: OperatorReply, rs: seq<PollReply>)
    ensures var o := OnInit(Initial(), cookiePresent, op, rs);
      (o.end != NotStarted <==>
        cookiePresent && op.OperatorResponse? && op.status == StatusSuccess && op.operator == SomeOperator)
      && (cookiePresent && op.OperatorResponse? && op.status != StatusSuccess ==>
            o.state.session.operatorError && o.consumed == 0)
  {
  }

  /** From a freshly constructed component, ngOnInit leaves the flags consistent. */
  lemma InitEstablishesConsistent(cookiePresent: bool, op: OperatorReply, rs: seq<PollReply>)
    ensures Consistent(OnInit(Initial(), cookiePresent, op, rs).state)
  {
    var a := CheckAuth(InitFields(Initial()), cookiePresent);
    if a.session.loggedIn && op.OperatorResponse? {
      var c := CheckOperator(a.(subscription := Live), op.status, op.operator);
      if c.1 {
        PollKeepsConsistent(c.0, AfterInit, rs);
      }
    }
  }

  /** openLink's branches: login for a missing session or an operator error, the personal
      account for a non-operator user, creation for an operator user without a usable
      subscription, home for an operator user with an active one. checked flips once per
      login or home branch; loading is raised and the creation handle stored only by creation. */
  lemma DispatchActions(s: State)
    ensures var (t, acts) := Dispatch(s);
      var se, sf := s.session, s.sub;
      (GoToLogin in acts <==> !se.loggedIn || se.operatorError)
      && (OpenPersonal in acts <==> se.loggedIn && !se.isOperatorUser && !se.operatorError)
      && (CreateSubscription in acts <==>
            se.loggedIn && se.isOperatorUser && (sf.noSubOrExpired || sf.subIsInHold || sf.subTarifficationError))
      && (OpenHome in acts <==> se.loggedIn && se.isOperatorUser && sf.subIsActive)
      && (t.ui.checked <==> (s.ui.checked != ((GoToLogin in acts) != (OpenHome in acts))))
      && t.ui.loading == (s.ui.loading || CreateSubscription in acts)
      && t.createSubscriptionSub == (if CreateSubscription in acts then Live else s.createSubscriptionSub)
      && t.session == s.session && t.sub == s.sub && t.ui.error == s.ui.error
      && t.subscription == s.subscription
  {
  }

  /** In a consistent state a click fires at most one action, and fires none exactly when an
      operator user without operator error is waiting for tariffication or has no status yet. */
  lemma ConsistentClickHasOneAction(s: State)
    requires Consistent(s)
    ensures var acts := Dispatch(s).1;
      var se, sf := s.session, s.sub;
      |acts| <= 1
      && (acts == [] <==>
            se.loggedIn && !se.operatorError && se.isOperatorUser && !sf.noSubOrExpired
            && !sf.subIsInHold && !sf.subTarifficationError && !sf.subIsActive)
  {
  }

  /** A failed creation request, or one answered with success false, clears loading, raises
      error and starts no poll loop. */
  lemma FailedCreationSetsError(s: State, reply: CreateReply, rs: seq<PollReply>)
    requires s.session.loggedIn && s.session.isOperatorUser
    requires s.sub.noSubOrExpired || s.sub.subIsInHold || s.sub.subTarifficationError
    requires reply == CreateRequestFailed || reply == CreateResponse(false)
    ensures var o := OpenLink(s, reply, rs).poll;
      !o.state.ui.loading && o.state.ui.error && o.end == Errored && o.consumed == 0
  {
    DispatchActions(s);
  }

  /** A click keeps a consistent state consistent, including the creation loop it may start. */
  lemma OpenLinkKeepsConsistent(s: State, reply: CreateReply, rs: seq<PollReply>)
    requires Consistent(s)
    ensures Consistent(OpenLink(s, reply, rs).poll.state)
  {
    DispatchActions(s);
    var d := Dispatch(s);
    if CreateSubscription in d.1 && reply == CreateResponse(true) {
      PollKeepsConsistent(d.0, AfterCreation, rs);
    }
  }

  /** unsub leaves no handle live, keeps an undefined handle undefined and changes no flag. */
  lemma UnsubCancelsAll(s: State)
    ensures var t := Unsub(s);
      t.subscription != Live && t.createSubscriptionSub != Live
      && (t.subscription == Absent <==> s.subscription == Absent)
      && (t.createSubscriptionSub == Absent <==> s.createSubscriptionSub == Absent)
      && t.session == s.session && t.sub == s.sub && t.ui == s.ui
  {
  }

  /** A second unsub changes nothing. */
  lemma UnsubIdempotent(s: State)
    ensures Unsub(Unsub(s)) == Unsub(s)
  {
  }

  /** After unsub (ngOnDestroy) no answer reaches the component any more: neither a poll
      answer of either loop nor the answer of a creation request still in flight. */
  lemma UnsubscribedLoopIgnoresReplies(s: State, rule: StopRule, reply: CreateReply, rs: seq<PollReply>)
    ensures PollRun(Unsub(s), rule, rs) == PollOutcome(Unsub(s), Unsubscribed, 0)
    ensures CreationReply(Unsub(s), reply, rs) == PollOutcome(Unsub(s), Unsubscribed, 0)
  {
  }

  /** The mapping of a null or expired answer does not clear the status flags, so after a
      waiting answer and then a null one, ngOnInit's loop stops with noSubOrExpired and
      subIsWaitingForTariffication both set. */
  lemma NullAfterWaitingKeepsWaitingFlag()
    ensures var o := OnInit(Initial(), true, OperatorResponse(StatusSuccess, SomeOperator),
                            [LastSubscription(Some(WaitingForTariffication)), LastSubscription(None)]);
      o.end == Stopped && o.consumed == 2
      && o.state.sub.noSubOrExpired && o.state.sub.subIsWaitingForTariffication
  {
  }
}
