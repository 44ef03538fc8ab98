/**
 The traffic-reset component itself: its boolean fields and two subscription handles,
 updated in place by methods that follow the source's steps one assignment at a time.
 The outside world enters as parameters: the `mobile_phone` cookie as a boolean, each
 HTTP answer as a value of ResetState, and the successive answers of the 10-second
 timer as a sequence that the poll loop walks until its stop predicate holds. Every
 method is proved to leave the component in the state the matching function of
 ResetState computes, so the lemmas proved there hold of the component.
 */
module ResetComponent {
  import opened ResetState

  class TrafficResetComponent {
    var loading: bool
    var error: bool
    var loggedIn: bool
    var isOperatorUser: bool
    var noSubOrExpired: bool
    var subIsWaitingForTariffication: bool
    var subIsActive: bool
    var subIsInHold: bool
    var subTarifficationError: bool
    var checked: bool
    var operatorError: bool

    var subscription: Handle
    var createSubscriptionSub: Handle

    /** The component's fields as one value. */
    function AsState(): State
      reads this
    {
      State(Session(loggedIn, isOperatorUser, operatorError),
            SubFlags(noSubOrExpired, subIsWaitingForTariffication, subIsActive, subIsInHold,
                     subTarifficationError),
            Ui(loading, error, checked),
            subscription, createSubscriptionSub)
    }

    /** Every field starts undefined, which the component's tests read as false. */
    constructor ()
      ensures AsState() == Initial()
    {
      loading, error, loggedIn, isOperatorUser := false, false, false, false;
      noSubOrExpired, subIsWaitingForTariffication, subIsActive := false, false, false;
      subIsInHold, subTarifficationError, checked, operatorError := false, false, false, false;
      subscription, createSubscriptionSub := Absent, Absent;
    }

    method InitFields()
      modifies this
      ensures !loading && !loggedIn && !error && !operatorError
      ensures AsState() == ResetState.InitFields(old(AsState()))
    {
      loading := false;
      loggedIn := false;
      error := false;
      operatorError := false;
    }

    method CheckAuth(cookiePresent: bool)
      modifies this
      ensures loggedIn == cookiePresent
      ensures AsState() == ResetState.CheckAuth(old(AsState()), cookiePresent)
    {
      loggedIn := cookiePresent;
    }

    method CheckOperator(status: string, operator: string) returns (isOperator: bool)
      modifies this
      ensures isOperator == isOperatorUser
      ensures status == StatusSuccess ==> !operatorError && (isOperatorUser <==> operator == SomeOperator)
      ensures status != StatusSuccess ==> operatorError && isOperatorUser == old(isOperatorUser)
      ensures (AsState(), isOperator) == ResetState.CheckOperator(old(AsState()), status, operator)
    {
      if status == StatusSuccess && operator == SomeOperator {
        isOperatorUser := true;
        operatorError := false;
      } else if status == StatusSuccess && operator != SomeOperator {
        isOperatorUser := false;
        operatorError := false;
      } else {
        operatorError := true;
      }
      isOperator := isOperatorUser;
    }

    method CheckActiveSubscription(state: SubState)
      modifies this
      ensures !loading && !error
      ensures subIsWaitingForTariffication <==> state == RequestedForCreation || state == WaitingForTariffication
      ensures subIsActive <==> state == Active
      ensures subIsInHold <==> state == SubscriberOnHold
      ensures subTarifficationError <==> state == TarifficationError
      ensures AsState() == ResetState.CheckActiveSubscription(old(AsState()), state)
    {
      loading := false;
      error := false;
      subIsWaitingForTariffication := false;
      subIsActive := false;
      subIsInHold := false;
      subTarifficationError := false;
      if state == RequestedForCreation || state == WaitingForTariffication {
        subIsWaitingForTariffication := true;
      } else if state == Active {
        subIsActive := true;
      } else if state == SubscriberOnHold {
        subIsInHold := true;
      } else if state == TarifficationError {
        subTarifficationError := true;
      }
    }

    /** The map applied to each polled answer body. */
    method OnLastSubscription(data: Option<SubState>)
      modifies this
      ensures noSubOrExpired <==> data.None? || data.value == SubscriptionExpired
      ensures AsState() == MapSnapshot(old(AsState()), data)
    {
      noSubOrExpired := data.None? || data.value == SubscriptionExpired;
      if !noSubOrExpired {
        CheckActiveSubscription(data.value);
      }
    }

    method Unsub()
      modifies this
      ensures subscription != Live && createSubscriptionSub != Live
      ensures AsState() == ResetState.Unsub(old(AsState()))
    {
      if subscription != Absent {
        subscription := Closed;
      }
      if createSubscriptionSub != Absent {
        createSubscriptionSub := Closed;
      }
    }

    method NgOnDestroy()
      modifies this
      ensures subscription != Live && createSubscriptionSub != Live
      ensures AsState() == ResetState.Unsub(old(AsState()))
    {
      Unsub();
    }

    /** An error notification on the stream of the loop `rule`. */
    method OnStreamError(rule: StopRule)
      modifies this
      ensures AsState() == StreamError(old(AsState()), rule)
    {
      match rule
      case AfterInit =>
        subscription := Closed;
      case AfterCreation =>
        loading := false;
        error := true;
        createSubscriptionSub := Closed;
    }

    /** The timer loop of checkLastSubscription together with the subscriber's stop check:
        each answer in `rs` is mapped onto the fields, then the loop unsubscribes everything
        when the stop predicate of `rule` holds. A failed request ends the loop. */
    method PollLastSubscription(rule: StopRule, rs: seq<PollReply>) returns (end: PollEnd, consumed: nat)
      modifies this
      ensures PollRun(old(AsState()), rule, rs) == PollOutcome(AsState(), end, consumed)
    {
      consumed := 0;
      if LoopHandle(AsState(), rule) != Live {
        end := Unsubscribed;
        return;
      }
      end := Running;
      while end == Running && consumed < |rs|
        invariant consumed <= |rs|
        invariant end == Running ==>
          LoopHandle(AsState(), rule) == Live
          && PollRun(old(AsState()), rule, rs)
             == var o := PollRun(AsState(), rule, rs[consumed..]); o.(consumed := o.consumed + consumed)
        invariant end != Running ==> PollRun(old(AsState()), rule, rs) == PollOutcome(AsState(), end, consumed)
        decreases |rs| - consumed
      {
        assert rs[consumed..][1..] == rs[consumed + 1..];
        match rs[consumed] {
          case PollRequestFailed =>
            OnStreamError(rule);
            end := Errored;
          case LastSubscription(data) =>
            OnLastSubscription(data);
            var stop := match rule
              case AfterInit => subIsActive || subIsInHold || subTarifficationError || noSubOrExpired
              case AfterCreation => subIsActive || subIsInHold || subTarifficationError;
            if stop {
              Unsub();
              end := Stopped;
            }
        }
        consumed := consumed + 1;
      }
    }

    /** ngOnInit: clear the fields, read the cookie, and when logged in subscribe to the
        operator check, whose result gates the poll loop. The stream errors, with no error
        callback, when the operator request fails or checkOperator yields false (the inner
        source is then undefined). */
    method NgOnInit(cookiePresent: bool, op: OperatorReply, rs: seq<PollReply>)
      returns (end: PollEnd, consumed: nat)
      modifies this
      ensures !cookiePresent ==> end == NotStarted && consumed == 0 && !loggedIn
      ensures OnInit(old(AsState()), cookiePresent, op, rs) == PollOutcome(AsState(), end, consumed)
    {
      InitFields();
      CheckAuth(cookiePresent);
      end, consumed := NotStarted, 0;
      if loggedIn {
        subscription := Live;
        match op
        case OperatorRequestFailed =>
          OnStreamError(AfterInit);
        case OperatorResponse(status, operator) =>
          var isOperator := CheckOperator(status, operator);
          if isOperator {
            end, consumed := PollLastSubscription(AfterInit, rs);
          } else {
            OnStreamError(AfterInit);
          }
      }
    }

    /** The creation request's answer: success starts the creation poll loop; a failed
        request, or success false (the inner source is then undefined), reaches the error
        callback. After unsub the answer reaches neither. */
    method OnCreateReply(reply: CreateReply, rs: seq<PollReply>) returns (end: PollEnd, consumed: nat)
      modifies this
      ensures CreationReply(old(AsState()), reply, rs) == PollOutcome(AsState(), end, consumed)
    {
      if createSubscriptionSub != Live {
        end, consumed := Unsubscribed, 0;
        return;
      }
      match reply
      case CreateResponse(success) =>
        if success {
          end, consumed := PollLastSubscription(AfterCreation, rs);
        } else {
          OnStreamError(AfterCreation);
          end, consumed := Errored, 0;
        }
      case CreateRequestFailed =>
        OnStreamError(AfterCreation);
        end, consumed := Errored, 0;
    }

    /** openLink: the four guarded branches in order, returning the actions they fire; the
        creation branch's answer arrives after all four have run. */
    method OpenLink(reply: CreateReply, rs: seq<PollReply>)
      returns (actions: seq<Action>, end: PollEnd, consumed: nat)
      modifies this
      ensures ResetState.OpenLink(old(AsState()), reply, rs)
              == ClickOutcome(actions, PollOutcome(AsState(), end, consumed))
    {
      ghost var s0 := AsState();
      actions := [];
      if !loggedIn || (loggedIn && operatorError) {
        checked := !checked;
        actions := [GoToLogin];
      }
      if loggedIn && !isOperatorUser && !operatorError {
        actions := actions + [OpenPersonal];
      }
      var create := loggedIn && isOperatorUser && (noSubOrExpired || subIsInHold || subTarifficationError);
      if create {
        loading := true;
        createSubscriptionSub := Live;
        actions := actions + [CreateSubscription];
      }
      ghost var s3 := AsState();
      assert s3.session == s0.session && s3.sub == s0.sub && s3.subscription == s0.subscription;
      if loggedIn && isOperatorUser && subIsActive {
        actions := actions + [OpenHome];
        checked := !checked;
      }
      assert AsState() == Dispatch(s0).0;
      assert actions == Dispatch(s0).1;
      end, consumed := NotStarted, 0;
      if create {
        end, consumed := OnCreateReply(reply, rs);
      }
    }
  }
}
