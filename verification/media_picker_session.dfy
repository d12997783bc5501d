/** A widget's lifetime as a sequence of presses, each run to completion
    before the next (the button is disabled while a press is in flight).
    The state one press leaves is the state the next press starts from. */
module MediaPickerSession {
  import opened Media
  import opened MediaPicker
  import MediaPickerProofs

  /** The provider's replies during one press. */
  datatype PressInput = PressInput(permission: PermissionReply, launch: LaunchReply)

  function RunPress(c: Config, s: WidgetState, input: PressInput): Press {
    PickMedia(c, s, input.permission, input.launch)
  }

  /** The presses of a session, in order. */
  function Session(c: Config, s: WidgetState, inputs: seq<PressInput>): (presses: seq<Press>)
    ensures |presses| == |inputs|
    decreases |inputs|
  {
    if |inputs| == 0 then []
    else
      var p := RunPress(c, s, inputs[0]);
      [p] + Session(c, p.state, inputs[1..])
  }

  /** The widget state once every press of a session has finished. */
  function FinalState(c: Config, s: WidgetState, inputs: seq<PressInput>): WidgetState
    decreases |inputs|
  {
    if |inputs| == 0 then s else FinalState(c, RunPress(c, s, inputs[0]).state, inputs[1..])
  }

  /** Every asset the caller receives during a session, in order. */
  function SessionDeliveries(presses: seq<Press>): seq<MediaAsset>
    decreases |presses|
  {
    if |presses| == 0 then [] else Deliveries(presses[0].effects) + SessionDeliveries(presses[1..])
  }

  /** The permission flag a session should leave, read from its end: the
      verdict of the last press whose permission request did not fault, or
      the initial flag when there is none. */
  function LastVerdict(inputs: seq<PressInput>, initial: bool): bool
    decreases |inputs|
  {
    if |inputs| == 0 then initial
    else
      match inputs[|inputs| - 1].permission
      case PermissionResponse(granted) => !granted
      case PermissionFault => LastVerdict(inputs[..|inputs| - 1], initial)
  }

  lemma {:induction false} FinalStateSnoc(c: Config, s: WidgetState, inputs: seq<PressInput>, last: PressInput)
    ensures FinalState(c, s, inputs + [last]) == RunPress(c, FinalState(c, s, inputs), last).state
    decreases |inputs|
  {
    if |inputs| == 0 {
      assert inputs + [last] == [last];
    } else {
      assert (inputs + [last])[0] == inputs[0];
      assert (inputs + [last])[1..] == inputs[1..] + [last];
      FinalStateSnoc(c, RunPress(c, s, inputs[0]).state, inputs[1..], last);
    }
  }

  /** The inline permission error after a session reflects the last verdict
      the provider gave: a later grant clears an earlier refusal, and a
      faulted request changes nothing. */
  lemma {:induction false} SessionPermissionFlag(c: Config, s: WidgetState, inputs: seq<PressInput>)
    ensures FinalState(c, s, inputs).permissionDenied == LastVerdict(inputs, s.permissionDenied)
    decreases |inputs|
  {
    if |inputs| > 0 {
      var init := inputs[..|inputs| - 1];
      var last := inputs[|inputs| - 1];
      assert inputs == init + [last];
      FinalStateSnoc(c, s, init, last);
      SessionPermissionFlag(c, s, init);
      MediaPickerProofs.StateFollowsTrace(c, FinalState(c, s, init), last.permission, last.launch);
    }
  }

  /** A session that had at least one press ends idle. */
  lemma {:induction false} SessionEndsIdle(c: Config, s: WidgetState, inputs: seq<PressInput>)
    ensures FinalState(c, s, inputs).isLoading <==> |inputs| == 0 && s.isLoading
    decreases |inputs|
  {
    if |inputs| > 0 {
      var p := RunPress(c, s, inputs[0]);
      MediaPickerProofs.StateFollowsTrace(c, s, inputs[0].permission, inputs[0].launch);
      SessionEndsIdle(c, p.state, inputs[1..]);
    }
  }

  /** The k-th press of a session starts from the state the first k presses
      leave. */
  lemma {:induction false} SessionAt(c: Config, s: WidgetState, inputs: seq<PressInput>, k: nat)
    requires k < |inputs|
    ensures Session(c, s, inputs)[k] == RunPress(c, FinalState(c, s, inputs[..k]), inputs[k])
    decreases k
  {
    var p := RunPress(c, s, inputs[0]);
    assert Session(c, s, inputs) == [p] + Session(c, p.state, inputs[1..]);
    if k > 0 {
      SessionAt(c, p.state, inputs[1..], k - 1);
      assert inputs[..k][0] == inputs[0];
      assert inputs[..k][1..] == inputs[1..][..k - 1];
    } else {
      assert inputs[..k] == [];
    }
  }

  /** Each press of a session calls back at most once, and only with an
      asset the provider offered in that same press that lies within both
      limits. */
  lemma SessionPressCallbacks(c: Config, s: WidgetState, inputs: seq<PressInput>, k: nat)
    requires k < |inputs|
    ensures var delivered := Deliveries(Session(c, s, inputs)[k].effects);
            && |delivered| <= 1
            && forall m | m in delivered ::
                 exists a :: MediaPickerProofs.Offers(inputs[k].launch, a)
                             && MediaPickerProofs.WithinLimits(c, a) && m == ToMediaAsset(a)
  {
    var prior := FinalState(c, s, inputs[..k]);
    SessionAt(c, s, inputs, k);
    MediaPickerProofs.PressDeliveries(c, prior, inputs[k].permission, inputs[k].launch);
    MediaPickerProofs.CallbackOnlyWithinLimits(c, prior, inputs[k].permission, inputs[k].launch);
  }

  /** Over a whole session there are no more callbacks than presses, each
      with an in-limits asset that some press offered. */
  lemma {:induction false} SessionDeliveriesOffered(c: Config, s: WidgetState, inputs: seq<PressInput>)
    ensures var delivered := SessionDeliveries(Session(c, s, inputs));
            && |delivered| <= |inputs|
            && forall m | m in delivered ::
                 exists k, a | 0 <= k < |inputs| ::
                   MediaPickerProofs.Offers(inputs[k].launch, a)
                   && MediaPickerProofs.WithinLimits(c, a) && m == ToMediaAsset(a)
    decreases |inputs|
  {
    if |inputs| > 0 {
      var p := RunPress(c, s, inputs[0]);
      var rest := Session(c, p.state, inputs[1..]);
      assert Session(c, s, inputs) == [p] + rest;
      assert ([p] + rest)[1..] == rest;
      MediaPickerProofs.PressDeliveries(c, s, inputs[0].permission, inputs[0].launch);
      MediaPickerProofs.CallbackOnlyWithinLimits(c, s, inputs[0].permission, inputs[0].launch);
      SessionDeliveriesOffered(c, p.state, inputs[1..]);
      forall m | m in SessionDeliveries(Session(c, s, inputs))
        ensures exists k, a | 0 <= k < |inputs| ::
                  MediaPickerProofs.Offers(inputs[k].launch, a)
                  && MediaPickerProofs.WithinLimits(c, a) && m == ToMediaAsset(a)
      {
        if m in Deliveries(p.effects) {
          var a :| MediaPickerProofs.Offers(inputs[0].launch, a)
                   && MediaPickerProofs.WithinLimits(c, a) && m == ToMediaAsset(a);
          assert 0 <= 0 < |inputs|;
        } else {
          var k, a :| 0 <= k < |inputs[1..]| && MediaPickerProofs.Offers(inputs[1..][k].launch, a)
                      && MediaPickerProofs.WithinLimits(c, a) && m == ToMediaAsset(a);
          assert inputs[1..][k] == inputs[k + 1];
        }
      }
    }
  }

  /** Across a whole session the caller is called back at most once per
      press, and only ever with an asset the provider offered in that press
      that lies within both limits. */
  lemma SessionCallbacks(c: Config, s: WidgetState, inputs: seq<PressInput>)
    ensures forall k | 0 <= k < |inputs| ::
              var delivered := Deliveries(Session(c, s, inputs)[k].effects);
              && |delivered| <= 1
              && forall m | m in delivered ::
                   exists a :: MediaPickerProofs.Offers(inputs[k].launch, a)
                               && MediaPickerProofs.WithinLimits(c, a) && m == ToMediaAsset(a)
    ensures var delivered := SessionDeliveries(Session(c, s, inputs));
            && |delivered| <= |inputs|
            && forall m | m in delivered ::
                 exists k, a | 0 <= k < |inputs| ::
                   MediaPickerProofs.Offers(inputs[k].launch, a)
                   && MediaPickerProofs.WithinLimits(c, a) && m == ToMediaAsset(a)
  {
    forall k | 0 <= k < |inputs|
      ensures var delivered := Deliveries(Session(c, s, inputs)[k].effects);
              && |delivered| <= 1
              && forall m | m in delivered ::
                   exists a :: MediaPickerProofs.Offers(inputs[k].launch, a)
                               && MediaPickerProofs.WithinLimits(c, a) && m == ToMediaAsset(a)
    {
      SessionPressCallbacks(c, s, inputs, k);
    }
    SessionDeliveriesOffered(c, s, inputs);
  }
}
