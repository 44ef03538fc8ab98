# Traffic-reset subscription state machine

A Dafny model of the subscription-status logic of the Angular `TrafficResetComponent`. This
is the widget that lets a mobile subscriber buy a "Traffic Reset" add-on. The component keeps
eleven boolean fields and two rxjs subscription handles. Four steps drive those fields:

- **Session check.** `ngOnInit` clears the fields and reads the `mobile_phone` cookie. When
  the user is logged in, it asks the server which operator the user belongs to.
- **Polling.** For a user of the affiliated operator (`someOperator`), ngOnInit polls
  `trafficreset/subscriptions/last` every 10 seconds. Each answer is mapped onto the flags
  `noSubOrExpired`, `subIsWaitingForTariffication`, `subIsActive`, `subIsInHold` and
  `subTarifficationError`. The loop stops, and every handle is cancelled, once the answer is
  active, on hold, in tariffication error, or there is no subscription or it has expired.
- **Primary button.** `openLink` chooses what the button does from the flags:
  - redirect to login;
  - open the personal account;
  - create a subscription, which starts a second poll loop with a narrower stop predicate;
  - open the home page.
- **Teardown.** `unsub` and `ngOnDestroy` cancel whichever handles exist.

The project has two modules:

- `ResetState` (`reset_state.dfy`) states every step as a function from the component's
  fields, gathered in one `State` value, to the new fields. Each poll loop is a function over
  the sequence of answers it receives. The lemmas about the component are stated and proved
  here. There are also reference definitions the steps are compared with:
  - the state table;
  - the "decisive answer" predicate;
  - the position of the first decisive answer;
  - `Consistent`, an invariant that every reachable state satisfies (it also admits some
    combinations that cannot be reached, such as an active subscription without a session).
- `ResetComponent` (`reset_component.dfy`) is the class `TrafficResetComponent`. Its fields
  are the source's fields, and its methods update them in place in the source's order. The
  poll is a `while` loop over the answers. Each method is proved to produce exactly the state
  the matching `ResetState` function computes, so every lemma of `ResetState` holds of the
  class. The step functions `MapSnapshot`, `StreamError`, `OnInit`, `Dispatch`,
  `CreationReply` and `OpenLink` carry no contract of their own: the rows of the class methods
  that follow them (`OnLastSubscription`, `OnStreamError`, `NgOnInit`, `OpenLink`,
  `OnCreateReply`) cite their source lines.

The outside world enters as parameters:

- the cookie as a boolean;
- each HTTP answer as a datatype value that can be a transport failure;
- the timer's successive answers as a sequence.

Browser navigation comes back as a list of `Action` values. The `state` string of a
subscription is decoded into `SubState`: the six literals the component compares against, plus
`Unrecognised` for any other string. `ParseState` and `StateName` relate the two.

Subscription handles are `Absent` (never assigned), `Live` or `Closed`. When a stream emits an
error notification, the stream ends and its handle counts as closed.

## Model

| member | source | states |
|---|---|---|
| ResetComponent.TrafficResetComponent.constructor | traffic-reset.component.ts:15-29 | every flag starts false (undefined) and both handles are absent |
| ResetComponent.TrafficResetComponent.InitFields | traffic-reset.component.ts:50-54 | loading, loggedIn, error and operatorError become false; every other field is unchanged |
| ResetComponent.TrafficResetComponent.CheckAuth | traffic-reset.component.ts:62-64 | loggedIn becomes exactly "the cookie is present"; nothing else changes |
| ResetComponent.TrafficResetComponent.CheckOperator | traffic-reset.component.ts:78-89 | on status success, operatorError is false and isOperatorUser holds iff the operator is someOperator; otherwise operatorError is true and isOperatorUser is kept; the result is the new isOperatorUser |
| ResetComponent.TrafficResetComponent.CheckActiveSubscription | traffic-reset.component.ts:114-130 | loading and error are cleared; each status flag is set exactly for its state(s); the other fields are unchanged |
| ResetComponent.TrafficResetComponent.OnLastSubscription | traffic-reset.component.ts:100-105 | noSubOrExpired holds iff the data is null or the state is expired; otherwise the state is applied as checkActiveSubscription does |
| ResetComponent.TrafficResetComponent.PollLastSubscription | traffic-reset.component.ts:95-106 | the loop over the answers leaves the component in the state, end and answer count of `PollRun` (stop predicate of line 43 or 154, then unsub) |
| ResetComponent.TrafficResetComponent.NgOnInit | traffic-reset.component.ts:37-48 | the component ends as `OnInit` computes; without the cookie nothing starts and loggedIn is false |
| ResetComponent.TrafficResetComponent.OnStreamError | traffic-reset.component.ts:158-161 | an error ends the init loop's handle only; on the creation loop it also clears loading and raises error |
| ResetComponent.TrafficResetComponent.OnCreateReply | traffic-reset.component.ts:148-162 | after unsub the answer changes nothing; otherwise a successful creation starts the creation poll loop, and a failed request or success false reaches the error callback |
| ResetComponent.TrafficResetComponent.OpenLink | traffic-reset.component.ts:138-168 | the four branches give the actions and state of `Dispatch`, then the creation answer is handled as `CreationReply` computes |
| ResetComponent.TrafficResetComponent.Unsub | traffic-reset.component.ts:170-177 | afterwards neither handle is live, and nothing else changes |
| ResetComponent.TrafficResetComponent.NgOnDestroy | traffic-reset.component.ts:179-181 | same as unsub: no handle stays live |
| ResetState.PollRun | traffic-reset.component.ts:95-106 | the loop never reads more answers than given; it ends as Unsubscribed exactly when its handle is not live; while running it has read every answer |
| ResetState.FirstDecisive | traffic-reset.component.ts:43 | the position of the first answer that ends the loop: no earlier answer is decisive, and the one there is |
| ResetState.InitAndAuth | traffic-reset.component.ts:50-64 | after initFields and checkAuth, loading, error and operatorError are false and loggedIn equals cookie presence; nothing else changes |
| ResetState.OperatorClassification | traffic-reset.component.ts:78-89 | success: operatorError is false and isOperatorUser iff someOperator; otherwise operatorError is true and isOperatorUser is kept; it returns the new isOperatorUser and touches no other field |
| ResetState.ParseStateName | traffic-reset.component.ts:101-128 | decoding a state's literal gives that state back; a string decodes as Unrecognised iff it matches none of the six literals |
| ResetState.NoSubscriptionSnapshot | traffic-reset.component.ts:101-104 | a null or expired answer sets noSubOrExpired and leaves loading, error, the status flags and every other field unchanged |
| ResetState.SnapshotFollowsStateTable | traffic-reset.component.ts:101-103 | any other answer clears noSubOrExpired, loading and error; each status flag is set iff the state table maps the state to it (none for an unknown state, at most one overall) |
| ResetState.SnapshotKeepsStatusExclusive | traffic-reset.component.ts:114-130 | mapping an answer never leaves two of the four status flags set (noSubOrExpired is not among them; see "## Left out") |
| ResetState.StopMatchesDecisive | traffic-reset.component.ts:43 | before the loop has stopped, an answer triggers the stop predicate iff it is decisive for that loop |
| ResetState.PollStopsAtFirstDecisive | traffic-reset.component.ts:40-46 | for a loop entered while its stop predicate does not yet hold: it reads answers up to and including the first decisive one, then stops (or errors on a failed request); it keeps polling through waiting or unknown states; with no decisive answer it is still running |
| ResetState.PollEnteredStopped | traffic-reset.component.ts:146-155 | for a loop entered while its stop predicate already holds (creation from in-hold or tariffication error): the first answer ends it iff that answer fails, is decisive, or is null or expired; otherwise the mapped state no longer satisfies the predicate and the loop goes on from there |
| ResetState.StoppedLoopCancelsHandles | traffic-reset.component.ts:43-45 | a loop that stopped leaves neither handle live |
| ResetState.StaleHoldStopsCreationPoll | traffic-reset.component.ts:154 | after creating from the on-hold state, a null first answer stops the creation loop at once, because the stale subIsInHold still satisfies its stop predicate |
| ResetState.PollKeepsConsistent | traffic-reset.component.ts:100-106 | polling that starts with subIsActive clear keeps the flags consistent and leaves the session flags and checked untouched (with subIsActive set, a null answer would set noSubOrExpired beside it) |
| ResetState.NoSessionNoPolling | traffic-reset.component.ts:40 | without the cookie, ngOnInit starts no loop and leaves the handles as they were |
| ResetState.OperatorGatesPolling | traffic-reset.component.ts:40-46 | from construction, polling starts iff the cookie is present and the operator answer is success for someOperator; a non-success status raises operatorError |
| ResetState.InitEstablishesConsistent | traffic-reset.component.ts:37-48 | from construction, ngOnInit leaves the flags consistent |
| ResetState.DispatchActions | traffic-reset.component.ts:139-167 | each action fires iff its guard holds; checked flips once per login or home branch; only creation raises loading and stores the creation handle |
| ResetState.ConsistentClickHasOneAction | traffic-reset.component.ts:139-167 | in a consistent state a click fires at most one action, and none exactly for an operator user whose subscription is waiting or unknown |
| ResetState.FailedCreationSetsError | traffic-reset.component.ts:146-161 | a failed creation request, or success false, leaves loading false and error true with no poll loop |
| ResetState.OpenLinkKeepsConsistent | traffic-reset.component.ts:138-168 | a click, including the creation loop it may start, keeps a consistent state consistent |
| ResetState.UnsubCancelsAll | traffic-reset.component.ts:170-177 | no handle stays live; an absent handle stays absent; no flag changes |
| ResetState.UnsubIdempotent | traffic-reset.component.ts:170-177 | a second unsub changes nothing |
| ResetState.UnsubscribedLoopIgnoresReplies | traffic-reset.component.ts:179-181 | after unsub or ngOnDestroy, no answer reaches the component: neither a poll answer of either loop nor the answer of a creation request still in flight |
| ResetState.NullAfterWaitingKeepsWaitingFlag | traffic-reset.component.ts:101-104 | a waiting answer followed by a null one stops ngOnInit's loop with noSubOrExpired and subIsWaitingForTariffication both set |

## Left out

- HTTP requests (`operator`, `trafficreset/subscriptions/last`, `POST trafficreset/subscriptions`) are not made. Their answers are inputs, including a transport failure.
- The rxjs `timer(0, 10000)` and the `concatMap`/`mergeMap` pipelines are reduced to one loop over a given sequence of answers. The 10-second period and the asynchronous scheduling are not modelled.
- The model is sequential. Each poll loop runs over its answers before anything else happens, so it does not interleave the init loop with a creation loop running at the same time.
- OpenLink: a second click while a creation loop is still live overwrites `createSubscriptionSub` and leaves the earlier loop unreachable. The model does not capture this, because it is sequential.
- `ShareService.getCookie` and `UrlService` are not part of this model. The cookie is a boolean, and URL bases do not matter to the state machine.
- `goToLogin`, `window.open`, `encodeURI` and `btoa` build browser navigation. The model returns an `Action` instead and does not build the URLs.
- The Angular decorator, the template, the CSS and the constant `service` record (name, price, duration) are presentation only.
- The subscription `state` string is decoded into `SubState` before it reaches the model. Every string outside the six literals becomes `Unrecognised`, which no branch of the component tells apart.
- SnapshotKeepsStatusExclusive: only the four status flags are proved mutually exclusive. A null or expired answer sets `noSubOrExpired` without clearing them, so `noSubOrExpired` can be set together with a status flag (NullAfterWaitingKeepsWaitingFlag). The model follows the code here, not a design that keeps all five flags exclusive.
- A failed `operator` request has no error handler in ngOnInit, so it changes no flag; only the stream ends. This model follows the code, although `operatorError` might be expected to rise here.
- `checkLastSubscription(false)` returns undefined, and mergeMap turns that into an error notification. A creation answer with `success` false therefore reaches the error callback: loading becomes false and error becomes true. In ngOnInit, where there is no error callback, only the stream ends.
