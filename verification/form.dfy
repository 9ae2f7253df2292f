/** The clinical-data form of components/sections/FormData.tsx: clearing the
    form, and submitting it with the single refresh-and-retry protocol. */
module Form {
  import opened Api
  import opened Auth

  /** The nine inputs of the form, as the text the user typed. */
  datatype FormFields = FormFields(
    glucose: string,
    bloodPressure: string,
    weight: string,
    height: string,
    age: string,
    insulin: string,
    skinThickness: string,
    diabetesPedigree: string,
    pregnancies: string)

  const EmptyForm := FormFields("", "", "", "", "", "", "", "", "")

  /** The body of POST /predict. It is built from the form's fields by numeric
      conversion, which is not modelled: the request is identified with the
      fields it is built from. */
  datatype PredictRequest = PredictRequest(form: FormFields)

  /** The `data` payload of a successful prediction, carried to `onPredict`
      but never inspected here. */
  datatype PredictionResult = PredictionResult(body: string)

  /** What a submit does outside the component. */
  datatype SubmitEvent =
    | PredictCall(request: PredictRequest, token: string)  // api.predict(request, token)
    | RefreshCall(refreshToken: string)                    // api.refreshToken(refreshToken)
    | Delivered(result: PredictionResult)                  // onPredict(result)

  const MustLogIn := "Anda harus login terlebih dahulu"
  const SessionExpired := "Sesi Anda telah berakhir. Silakan login kembali."
  const PredictionFailed := "Prediksi gagal. Silakan coba lagi."

  /** `sub` occurs in `s` starting at index `i`. */
  predicate OccursAt(s: string, sub: string, i: int)
  {
    0 <= i && i + |sub| <= |s| && s[i..i + |sub|] == sub
  }

  /** `s.includes(sub)`: a case-sensitive substring test. */
  function Contains(s: string, sub: string): (b: bool)
    ensures b <==> exists i :: OccursAt(s, sub, i)
    decreases |s|
  {
    if |s| < |sub| then
      assert forall i :: !OccursAt(s, sub, i);
      false
    else if s[..|sub|] == sub then
      assert OccursAt(s, sub, 0);
      true
    else
      var rest := Contains(s[1..], sub);
      assert forall i :: OccursAt(s[1..], sub, i) ==> OccursAt(s, sub, i + 1) by {
        forall i | OccursAt(s[1..], sub, i) ensures OccursAt(s, sub, i + 1) {
          assert s[1..][i..i + |sub|] == s[i + 1..i + 1 + |sub|];
        }
      }
      assert forall i :: OccursAt(s, sub, i) ==> OccursAt(s[1..], sub, i - 1) by {
        forall i | OccursAt(s, sub, i) ensures OccursAt(s[1..], sub, i - 1) {
          assert i != 0;
          assert s[1..][i - 1..i - 1 + |sub|] == s[i..i + |sub|];
        }
      }
      rest
  }

  /** The test that makes a failed predict worth one refresh-and-retry. */
  predicate IsExpiryMessage(message: string)
    ensures IsExpiryMessage(message) <==>
      (exists i :: OccursAt(message, "token", i)) || (exists i :: OccursAt(message, "expired", i))
  {
    Contains(message, "token") || Contains(message, "expired")
  }

  /** A message that lacks some character of `sub` does not contain `sub`. */
  lemma LacksCharacter(s: string, sub: string, j: nat)
    requires j < |sub|
    requires forall i :: 0 <= i < |s| ==> s[i] != sub[j]
    ensures !Contains(s, sub)
  {
    forall i | 0 <= i && i + |sub| <= |s| ensures !OccursAt(s, sub, i) {
      assert s[i..i + |sub|][j] == s[i + j];
    }
  }

  /** A message that lacks one letter of "token" and one letter of "expired"
      never starts a retry. */
  lemma LacksExpiryWords(message: string, j: nat, k: nat)
    requires j < 5 && k < 7
    requires forall i :: 0 <= i < |message| ==> message[i] != "token"[j] && message[i] != "expired"[k]
    ensures !IsExpiryMessage(message)
  {
    LacksCharacter(message, "token", j);
    LacksCharacter(message, "expired", k);
  }

  /** The client's fallback text for a failed predict never starts a retry:
      it has neither a "k" nor an "x". */
  lemma FallbackIsNoExpiryMessage()
    ensures !IsExpiryMessage(PredictFallback)
    ensures !IsExpiryMessage(FailureMessage(None, PredictFallback))
    ensures !IsExpiryMessage(FailureMessage(Some(""), PredictFallback))
  {
    LacksExpiryWords(PredictFallback, 2, 1);
  }

  /** The test is case-sensitive: a server message about an expired token
      starts a retry whichever way "Token" is written, one that only says
      "Token" does not. */
  lemma ExpiryTestIsCaseSensitive()
    ensures IsExpiryMessage("Token expired")
    ensures IsExpiryMessage("Invalid token")
    ensures !IsExpiryMessage("Token invalid")
  {
    assert OccursAt("Token expired", "expired", 6);
    assert OccursAt("Invalid token", "token", 8);
    LacksExpiryWords("Token invalid", 0, 1);
  }

  /** `err.message || "Prediksi gagal. Silakan coba lagi."` */
  function ErrorText(message: string): (e: string)
    ensures e != ""
    ensures message != "" ==> e == message
    ensures message == "" ==> e == PredictionFailed
  {
    if message != "" then message else PredictionFailed
  }

  function PredictCount(log: seq<SubmitEvent>): nat
  {
    if log == [] then 0 else (if log[0].PredictCall? then 1 else 0) + PredictCount(log[1..])
  }

  function RefreshCount(log: seq<SubmitEvent>): nat
  {
    if log == [] then 0 else (if log[0].RefreshCall? then 1 else 0) + RefreshCount(log[1..])
  }

  function DeliveryCount(log: seq<SubmitEvent>): nat
  {
    if log == [] then 0 else (if log[0].Delivered? then 1 else 0) + DeliveryCount(log[1..])
  }

  /** Counting the events of a log one event at a time. */
  lemma {:induction false} CountsOfPush(log: seq<SubmitEvent>, e: SubmitEvent)
    ensures PredictCount(log + [e]) == PredictCount(log) + (if e.PredictCall? then 1 else 0)
    ensures RefreshCount(log + [e]) == RefreshCount(log) + (if e.RefreshCall? then 1 else 0)
    ensures DeliveryCount(log + [e]) == DeliveryCount(log) + (if e.Delivered? then 1 else 0)
    decreases |log|
  {
    if log == [] {
      assert [] + [e] == [e];
      assert [e][1..] == [];
    } else {
      assert (log + [e])[0] == log[0];
      assert (log + [e])[1..] == log[1..] + [e];
      CountsOfPush(log[1..], e);
    }
  }

  /** What a submit leaves behind: the storage, the error shown, and the
      calls and deliveries made, in order. */
  datatype SubmitOutcome = SubmitOutcome(store: Store, error: string, log: seq<SubmitEvent>)

  /** The inner `catch` of handleSubmit, after the first predict (logged in
      `attempt`) failed on "token" or "expired" and the refresh ended as `r`:
      give up when it brought no usable token, otherwise predict once more with
      the same request and the new token. */
  function AfterRefresh(attempt: seq<SubmitEvent>, r: RefreshOutcome, request: PredictRequest,
                        retry: ApiResult<PredictionResult>): (o: SubmitOutcome)
    // the storage is the one the refresh left
    ensures o.store == r.store
    // no usable token: the session is declared over, no second predict
    ensures !Truthy(r.token) ==> o.error == SessionExpired && PredictCount(o.log) == PredictCount(attempt)
    // exactly one refresh call when a refresh token was sent, none otherwise
    ensures RefreshCount(o.log) == RefreshCount(attempt) + (if r.sent.Some? then 1 else 0)
    // at most one more predict, with the new token, and at most one delivery
    ensures PredictCount(o.log) == PredictCount(attempt) + (if Truthy(r.token) then 1 else 0)
    ensures DeliveryCount(o.log) <= DeliveryCount(attempt) + 1
    ensures o.error == "" <==> DeliveryCount(o.log) == DeliveryCount(attempt) + 1
    // a retry that succeeds is delivered last and clears the error
    ensures Truthy(r.token) && retry.Ok? ==>
      o.error == "" && |o.log| > 0 && o.log[|o.log| - 1] == Delivered(retry.data)
    // a retry that fails shows its message, or the fallback, and delivers nothing
    ensures Truthy(r.token) && retry.Err? ==>
      o.error == ErrorText(retry.message) && DeliveryCount(o.log) == DeliveryCount(attempt)
  {
    var calls := if r.sent.Some? then attempt + [RefreshCall(r.sent.value)] else attempt;
    CountsOfPush(attempt, RefreshCall(if r.sent.Some? then r.sent.value else ""));
    if !Truthy(r.token) then SubmitOutcome(r.store, SessionExpired, calls)
    else
      var again := calls + [PredictCall(request, r.token.value)];
      CountsOfPush(calls, PredictCall(request, r.token.value));
      match retry
      case Ok(data) =>
        CountsOfPush(again, Delivered(data));
        SubmitOutcome(r.store, "", again + [Delivered(data)])
      case Err(retryMessage) => SubmitOutcome(r.store, ErrorText(retryMessage), again)
  }

  /** The refresh-and-retry branch only appends to the calls already made,
      and every predict it appends sends the request with the refreshed token. */
  lemma AfterRefreshExtendsAttempt(attempt: seq<SubmitEvent>, r: RefreshOutcome, request: PredictRequest,
                                   retry: ApiResult<PredictionResult>)
    ensures var o := AfterRefresh(attempt, r, request, retry);
      && |attempt| <= |o.log| && o.log[..|attempt|] == attempt
      && forall i :: |attempt| <= i < |o.log| && o.log[i].PredictCall? ==>
           o.log[i].request == request && Some(o.log[i].token) == r.token
  {
    var calls := if r.sent.Some? then attempt + [RefreshCall(r.sent.value)] else attempt;
    assert calls[..|attempt|] == attempt;
    if Truthy(r.token) {
      var again := calls + [PredictCall(request, r.token.value)];
      assert again[..|attempt|] == attempt;
      if retry.Ok? {
        assert (again + [Delivered(retry.data)])[..|attempt|] == attempt;
      }
    }
  }

  /** handleSubmit over storage `s`, for a form that yields `request`. `first`,
      `refreshReply` and `retry` are the server's replies to the first predict,
      to a refresh and to the second predict; each is used only if that call
      is made. */
  function SubmitSpec(s: Store, window: bool, request: PredictRequest, first: ApiResult<PredictionResult>,
                      refreshReply: ApiResult<string>, retry: ApiResult<PredictionResult>): (o: SubmitOutcome)
    // no usable token: a local error, no call, storage untouched
    ensures !Truthy(AccessToken(s, window)) ==> o == SubmitOutcome(s, MustLogIn, [])
    // otherwise the first call is a predict with the stored token
    ensures Truthy(AccessToken(s, window)) ==>
      |o.log| > 0 && o.log[0] == PredictCall(request, AccessToken(s, window).value)
    // a successful first predict is delivered once, with no refresh
    ensures Truthy(AccessToken(s, window)) && first.Ok? ==>
      o == SubmitOutcome(s, "", [PredictCall(request, AccessToken(s, window).value), Delivered(first.data)])
    // a failure that does not start a retry shows its message, or the fallback
    ensures Truthy(AccessToken(s, window)) && first.Err? && !IsExpiryMessage(first.message) ==>
      o == SubmitOutcome(s, ErrorText(first.message), [PredictCall(request, AccessToken(s, window).value)])
    // storage changes only through the refresh that an expiry message starts
    ensures o.store == s || (first.Err? && IsExpiryMessage(first.message) && o.store == Refresh(s, window, refreshReply).store)
    // after an expiry failure the storage is what the refresh left, cleared when it failed
    ensures Truthy(AccessToken(s, window)) && first.Err? && IsExpiryMessage(first.message) ==>
      o.store == Refresh(s, window, refreshReply).store
  {
    var t := AccessToken(s, window);
    if !Truthy(t) then SubmitOutcome(s, MustLogIn, [])
    else
      var attempt := [PredictCall(request, t.value)];
      match first
      case Ok(data) => SubmitOutcome(s, "", attempt + [Delivered(data)])
      case Err(message) =>
        if !IsExpiryMessage(message) then SubmitOutcome(s, ErrorText(message), attempt)
        else AfterRefresh(attempt, Refresh(s, window, refreshReply), request, retry)
  }

  /** A submit makes at most two predicts and one refresh and delivers at most
      one result; it ends without an error exactly when it delivered one. A
      refresh or a second predict happens only after a first predict that
      failed on "token" or "expired"; when that refresh yields no usable token,
      the submit ends after the first predict and says the session is over. */
  lemma SubmitCallBounds(s: Store, window: bool, request: PredictRequest, first: ApiResult<PredictionResult>,
                         refreshReply: ApiResult<string>, retry: ApiResult<PredictionResult>)
    ensures var o := SubmitSpec(s, window, request, first, refreshReply, retry);
      && PredictCount(o.log) <= 2 && RefreshCount(o.log) <= 1 && DeliveryCount(o.log) <= 1
      && (o.error == "" <==> DeliveryCount(o.log) == 1)
      && (RefreshCount(o.log) == 1 || PredictCount(o.log) == 2 ==> first.Err? && IsExpiryMessage(first.message))
    ensures Truthy(AccessToken(s, window)) && first.Err? && IsExpiryMessage(first.message)
            && !Truthy(Refresh(s, window, refreshReply).token) ==>
      var o := SubmitSpec(s, window, request, first, refreshReply, retry);
      o.error == SessionExpired && PredictCount(o.log) == 1 && DeliveryCount(o.log) == 0
  {
    var t := AccessToken(s, window);
    if Truthy(t) {
      var attempt := [PredictCall(request, t.value)];
      CountsOfPush([], attempt[0]);
      assert [] + attempt == attempt;
      if first.Ok? {
        CountsOfPush(attempt, Delivered(first.data));
      }
    }
  }

  /** An expiry failure followed by a good refresh: the submit makes a
      predict, a refresh with the stored refresh token and a second predict
      with the new token, which is then stored; the second reply decides the
      outcome, a delivered payload or its error message. */
  lemma SubmitRetryAfterRefresh(s: Store, window: bool, request: PredictRequest, first: ApiResult<PredictionResult>,
                                refreshReply: ApiResult<string>, retry: ApiResult<PredictionResult>)
    ensures var o := SubmitSpec(s, window, request, first, refreshReply, retry);
      var r := Refresh(s, window, refreshReply);
      Truthy(AccessToken(s, window)) && first.Err? && IsExpiryMessage(first.message) && Truthy(r.token) ==>
        && RefreshToken(s, window).Some? && |o.log| >= 3
        && o.log[..3] == [PredictCall(request, AccessToken(s, window).value),
                          RefreshCall(RefreshToken(s, window).value),
                          PredictCall(request, r.token.value)]
        && o.store == r.store && AccessToken(o.store, window) == r.token
        && (retry.Ok? ==> o.error == "" && o.log == o.log[..3] + [Delivered(retry.data)])
        && (retry.Err? ==> o.error == ErrorText(retry.message) && o.log == o.log[..3])
  {
    var t := AccessToken(s, window);
    if Truthy(t) {
      AfterRefreshExtendsAttempt([PredictCall(request, t.value)], Refresh(s, window, refreshReply), request, retry);
    }
  }

  /** Every predict of a submit sends the form's request; a second predict
      sends the access token the refresh returned. */
  lemma SubmitRetryUsesRefreshedToken(s: Store, window: bool, request: PredictRequest, first: ApiResult<PredictionResult>,
                                      refreshReply: ApiResult<string>, retry: ApiResult<PredictionResult>)
    ensures var o := SubmitSpec(s, window, request, first, refreshReply, retry);
      && (forall i :: 0 <= i < |o.log| && o.log[i].PredictCall? ==> o.log[i].request == request)
      && (forall i :: 0 < i < |o.log| && o.log[i].PredictCall? ==>
            Some(o.log[i].token) == Refresh(s, window, refreshReply).token)
  {
    var t := AccessToken(s, window);
    if Truthy(t) {
      AfterRefreshExtendsAttempt([PredictCall(request, t.value)], Refresh(s, window, refreshReply), request, retry);
    }
  }

  /** The FormData component's state. */
  class FormData {
    var fields: FormFields
    var isLoading: bool
    var error: string

    constructor ()
      ensures fields == EmptyForm && !isLoading && error == ""
    {
      fields := EmptyForm;
      isLoading := false;
      error := "";
    }

    /** handleClearForm */
    method ClearForm()
      modifies this`fields, this`error
      ensures fields == EmptyForm && error == ""
    {
      fields := EmptyForm;
      error := "";
    }

    /** The inner `catch` of handleSubmit after a predict, logged in `attempt`,
        failed on "token" or "expired": refresh through the token manager and,
        with a usable new token, predict once more. */
    method RefreshAndRetry(store: TokenManager, attempt: seq<SubmitEvent>, request: PredictRequest,
                           refreshReply: ApiResult<string>, retry: ApiResult<PredictionResult>)
      returns (error: string, log: seq<SubmitEvent>)
      requires store.Valid()
      modifies store
      ensures store.Valid()
      ensures SubmitOutcome(store.items, error, log)
           == AfterRefresh(attempt, Refresh(old(store.items), store.windowPresent, refreshReply), request, retry)
    {
      error := "";
      log := attempt;
      var accessToken, sent := store.RefreshAccessToken(refreshReply);
      if sent.Some? {
        log := log + [RefreshCall(sent.value)];
      }
      if !Truthy(accessToken) {
        error := SessionExpired;
      } else {
        log := log + [PredictCall(request, accessToken.value)];
        match retry {
          case Ok(data) =>
            log := log + [Delivered(data)];
          case Err(retryMessage) =>
            error := ErrorText(retryMessage);
        }
      }
    }

    /** handleSubmit. `first` is the server's reply to the first predict,
        `refreshReply` its reply to a refresh, `retry` its reply to the second
        predict; each is consumed only if that call is made. The result lists
        the calls made and the results handed to `onPredict`, in order. */
    method Submit(store: TokenManager, first: ApiResult<PredictionResult>,
                  refreshReply: ApiResult<string>, retry: ApiResult<PredictionResult>)
      returns (log: seq<SubmitEvent>)
      requires store.Valid()
      modifies this`isLoading, this`error, store
      ensures store.Valid()
      ensures !isLoading
      ensures SubmitOutcome(store.items, error, log)
           == SubmitSpec(old(store.items), store.windowPresent, PredictRequest(fields), first, refreshReply, retry)
    {
      isLoading := true;
      error := "";
      log := [];

      var accessToken := store.GetAccessToken();
      if !Truthy(accessToken) {
        error := MustLogIn;
        isLoading := false;
        return;
      }

      var request := PredictRequest(fields);
      log := [PredictCall(request, accessToken.value)];
      match first {
        case Ok(data) =>
          log := log + [Delivered(data)];
        case Err(message) =>
          if IsExpiryMessage(message) {
            var more;
            error, more := RefreshAndRetry(store, log, request, refreshReply, retry);
            log := more;
          } else {
            error := ErrorText(message);
          }
      }
      isLoading := false;
    }
  }
}
