// The browser automation of src/services/automation.js: one `Browser`
// object per (e-mail, Telegram user), opened by `Init`, driving the
// Gameloft store's login and the two-slot free-reward loop, and closed by
// `Close`.
//
// Playwright is an oracle: each operation receives what the page showed
// (which elements were visible, which actions threw) as a probe value, and
// the model decides, exactly as the source's branches and try/catch blocks
// do, what the operation returns.
module Automation {
  import opened Common

  /** What the store page showed to `startLogin`. `navigationFault` is the
      message of an exception thrown while loading the page or reading the
      login button; `formFault` one thrown while clicking it, waiting for the
      e-mail field, filling it or submitting. */
  datatype LoginPage = LoginPage(navigationFault: Option<string>, loginHidden: bool, formFault: Option<string>)

  /** What the page showed to `submitOtp`: whether waiting for or filling the
      five-character code field threw, and whether the field was still visible
      after the settle wait. */
  datatype OtpPage = OtpPage(fault: bool, codeFieldStillVisible: bool)

  /** The session check at the start of `collectRewards`: whether navigating
      and reading the login button worked, whether the button was visible,
      whether the reload worked, and whether the button was still visible
      after it. */
  datatype SessionProbe = SessionProbe(navigationOk: bool, loginVisible: bool, reloadOk: bool, loginVisibleAfterReload: bool)

  /** One pass of the reward loop. `preludeOk` covers the steps outside the
      inner try (returning from a purchase-success page, the random delay and
      the human-like scroll); the rest are the inner try's steps. `imageSrc` is
      the reward image's `src` attribute (None when absent or unreadable);
      `settleOk` is the random delay after the claim. */
  datatype SlotProbe = SlotProbe(
    preludeOk: bool,
    freeVisible: bool,
    imageSrc: Option<string>,
    freeClickOk: bool,
    claimVisible: bool,
    claimClickOk: bool,
    settleOk: bool)

  datatype StorePage = StorePage(session: SessionProbe, slot1: SlotProbe, slot2: SlotProbe)
  {
    function SlotAt(i: int): SlotProbe
    {
      if i == 1 then slot1 else slot2
    }
  }

  /** `collectRewards`'s result: the sentinel "SESSION_LOST" or
      `{count, rewardImages}`. */
  datatype CollectResult = SessionLost | Rewards(count: nat, images: seq<string>)

  const AlreadyLogged: string := "ALREADY_LOGGED"
  const NeedOtp: string := "NEED_OTP"

  /** The images a slot records: the `src` only when it is truthy. */
  function Recorded(src: Option<string>): (r: seq<string>)
    ensures |r| <= 1
    ensures forall k :: 0 <= k < |r| ==> r[k] != ""
  {
    if TruthyOptString(src) then [src.value] else []
  }

  /** The rest of the reward loop from pass `i` (1 or 2, 3 meaning done),
      with `collected` claims and `images` recorded so far. A throw outside
      the inner try discards everything; a throw inside it ends the loop
      keeping what was gathered. */
  function SlotLoop(page: StorePage, i: int, collected: nat, images: seq<string>): (r: CollectResult)
    requires 1 <= i <= 3
    ensures r.Rewards?
    ensures r.count == 0 || r.count >= collected
    decreases 3 - i
  {
    if i == 3 then Rewards(collected, images)
    else
      var s := page.SlotAt(i);
      if !s.preludeOk then Rewards(0, [])
      else if !s.freeVisible then Rewards(collected, images)
      else
        var recorded := images + Recorded(s.imageSrc);
        if !(s.freeClickOk && s.claimVisible && s.claimClickOk) then Rewards(collected, recorded)
        else if !s.settleOk then Rewards(collected + 1, recorded)
        else SlotLoop(page, i + 1, collected + 1, recorded)
  }

  /** `collectRewards` as a function of what the store page showed. */
  function Collect(page: StorePage): (r: CollectResult)
    ensures r.SessionLost? <==>
      page.session.navigationOk && page.session.loginVisible
      && page.session.reloadOk && page.session.loginVisibleAfterReload
  {
    var p := page.session;
    if !p.navigationOk then Rewards(0, [])
    else if p.loginVisible && !p.reloadOk then Rewards(0, [])
    else if p.loginVisible && p.loginVisibleAfterReload then SessionLost
    else SlotLoop(page, 1, 0, [])
  }

  /** From pass `i` with one claim per earlier pass and at most one image
      per claim, the loop ends with at most two claims and at most one image
      more than claims, every image a non-empty URL. */
  lemma {:induction false} SlotLoopBounds(page: StorePage, i: int, collected: nat, images: seq<string>)
    requires 1 <= i <= 3 && collected == i - 1 && |images| <= collected
    requires forall k :: 0 <= k < |images| ==> images[k] != ""
    ensures var r := SlotLoop(page, i, collected, images);
      r.count <= 2 && |r.images| <= r.count + 1 && |r.images| <= 2
      && forall k :: 0 <= k < |r.images| ==> r.images[k] != ""
    decreases 3 - i
  {
    if i < 3 {
      var s := page.SlotAt(i);
      var recorded := images + Recorded(s.imageSrc);
      if s.preludeOk && s.freeVisible && s.freeClickOk && s.claimVisible && s.claimClickOk && s.settleOk {
        SlotLoopBounds(page, i + 1, collected + 1, recorded);
      }
    }
  }

  /** `collectRewards` never reports more than two rewards; it records an
      image only for a slot it reached, so at most one more image than
      claims, and never an empty URL. */
  lemma CollectBounds(page: StorePage)
    ensures var r := Collect(page);
      r.Rewards? ==> r.count <= 2 && |r.images| <= r.count + 1 && |r.images| <= 2
                     && forall k :: 0 <= k < |r.images| ==> r.images[k] != ""
  {
    if page.session.navigationOk && !(page.session.loginVisible && !page.session.reloadOk)
       && !(page.session.loginVisible && page.session.loginVisibleAfterReload) {
      SlotLoopBounds(page, 1, 0, []);
    }
  }

  /** The session was restored or never lost, the first reward was claimed,
      and the second pass failed inside its try (no "Free" tile, or its click
      or claim failed): the first claim is kept. */
  lemma {:induction false} FailureInSlotKeepsEarlierClaim(page: StorePage)
    requires page.session.navigationOk
    requires !page.session.loginVisible || (page.session.reloadOk && !page.session.loginVisibleAfterReload)
    requires var s := page.slot1;
      s.preludeOk && s.freeVisible && s.freeClickOk && s.claimVisible && s.claimClickOk && s.settleOk
    requires var s := page.slot2;
      s.preludeOk && !(s.freeVisible && s.freeClickOk && s.claimVisible && s.claimClickOk)
    ensures Collect(page) == Rewards(1, Recorded(page.slot1.imageSrc)
                                        + (if page.slot2.freeVisible then Recorded(page.slot2.imageSrc) else []))
  {
    assert Collect(page) == SlotLoop(page, 1, 0, []);
    var r1 := Recorded(page.slot1.imageSrc);
    assert SlotLoop(page, 1, 0, []) == SlotLoop(page, 2, 1, [] + r1);
    assert [] + r1 == r1;
    assert r1 + [] == r1;
  }

  /** A throw outside the inner try (the return from the purchase page, the
      delay or the scroll of the second pass) makes `collectRewards` report
      nothing, even though the first reward was already claimed. */
  lemma {:induction false} FaultOutsideSlotDiscardsClaims(page: StorePage)
    requires page.session.navigationOk
    requires !page.session.loginVisible || (page.session.reloadOk && !page.session.loginVisibleAfterReload)
    requires var s := page.slot1;
      s.preludeOk && s.freeVisible && s.freeClickOk && s.claimVisible && s.claimClickOk && s.settleOk
    requires !page.slot2.preludeOk
    ensures Collect(page) == Rewards(0, [])
  {
    assert Collect(page) == SlotLoop(page, 1, 0, []);
    assert SlotLoop(page, 1, 0, []) == SlotLoop(page, 2, 1, Recorded(page.slot1.imageSrc));
  }

  /** Two fully successful passes claim two rewards. */
  lemma {:induction false} TwoClaims(page: StorePage)
    requires page.session.navigationOk && !page.session.loginVisible
    requires forall i :: 1 <= i <= 2 ==> var s := page.SlotAt(i);
      s.preludeOk && s.freeVisible && s.freeClickOk && s.claimVisible && s.claimClickOk
    requires page.slot1.settleOk
    ensures Collect(page) == Rewards(2, Recorded(page.slot1.imageSrc) + Recorded(page.slot2.imageSrc))
  {
    assert page.SlotAt(1) == page.slot1 && page.SlotAt(2) == page.slot2;
    var r1 := Recorded(page.slot1.imageSrc);
    assert SlotLoop(page, 1, 0, []) == SlotLoop(page, 2, 1, [] + r1);
    assert [] + r1 == r1;
  }

  /** What `startLogin` returns for what the page showed. */
  function StartLoginResult(page: LoginPage): string
  {
    if page.navigationFault.Some? then page.navigationFault.value
    else if page.loginHidden then AlreadyLogged
    else if page.formFault.Some? then page.formFault.value
    else NeedOtp
  }

  class Browser {
    const email: string
    const telegramId: int
    /** `this.context !== null`. */
    var hasContext: bool
    /** How many times `context.close()` was requested. */
    var closeRequests: nat

    constructor (email: string, telegramId: int)
      ensures this.email == email && this.telegramId == telegramId
      ensures !hasContext && closeRequests == 0
    {
      this.email := email;
      this.telegramId := telegramId;
      hasContext := false;
      closeRequests := 0;
    }

    /** `init`: launching the context sets `context` even when opening its
        page then throws; `threw` reports the exception the caller sees. */
    method Init(launch: Launch) returns (threw: bool)
      modifies this`hasContext
      ensures threw <==> !launch.Launched?
      ensures hasContext == (old(hasContext) || !launch.LaunchFailed?)
    {
      if launch.LaunchFailed? {
        return true;
      }
      hasContext := true;
      threw := launch.PageFailed?;
    }

    /** `startLogin`: "ALREADY_LOGGED" when the login button is hidden,
        "NEED_OTP" once the e-mail was submitted, otherwise the message of
        the exception that interrupted it. It never throws. */
    method StartLogin(page: LoginPage) returns (r: string)
      ensures r == StartLoginResult(page)
      ensures page.navigationFault.Some? ==> r == page.navigationFault.value
      ensures page.navigationFault.None? && page.loginHidden ==> r == AlreadyLogged
      ensures page.navigationFault.None? && !page.loginHidden ==>
        r == (if page.formFault.Some? then page.formFault.value else NeedOtp)
    {
      if page.navigationFault.Some? {
        return page.navigationFault.value;
      }
      if page.loginHidden {
        return AlreadyLogged;
      }
      if page.formFault.Some? {
        return page.formFault.value;
      }
      return NeedOtp;
    }

    /** `submitOtp(code)`: true exactly when no step threw and the code field
        disappeared after the settle wait. */
    method SubmitOtp(code: string, page: OtpPage) returns (ok: bool)
      ensures ok <==> !page.fault && !page.codeFieldStillVisible
    {
      if page.fault {
        return false;
      }
      var stillHasOtp := page.codeFieldStillVisible;
      ok := !stillHasOtp;
    }

    /** `collectRewards`: the session check, then up to two passes of the
        reward loop. */
    method CollectRewards(page: StorePage) returns (r: CollectResult)
      ensures r == Collect(page)
    {
      var p := page.session;
      if !p.navigationOk {
        return Rewards(0, []);
      }
      if p.loginVisible {
        if !p.reloadOk {
          return Rewards(0, []);
        }
        if p.loginVisibleAfterReload {
          return SessionLost;
        }
      }
      var collected: nat := 0;
      var rewardImages: seq<string> := [];
      var i := 1;
      while i <= 2
        invariant 1 <= i <= 3
        invariant SlotLoop(page, i, collected, rewardImages) == Collect(page)
        decreases 3 - i
      {
        var s := page.SlotAt(i);
        if !s.preludeOk {
          return Rewards(0, []);
        }
        if !s.freeVisible {
          break;
        }
        if TruthyOptString(s.imageSrc) {
          rewardImages := rewardImages + [s.imageSrc.value];
        }
        if !s.freeClickOk || !s.claimVisible || !s.claimClickOk {
          break;
        }
        collected := collected + 1;
        if !s.settleOk {
          break;
        }
        i := i + 1;
      }
      return Rewards(collected, rewardImages);
    }

    /** `close`: asks the context to close only if one was opened, swallows
        any error, and returns true. */
    method Close() returns (r: bool)
      modifies this`closeRequests
      ensures r
      ensures closeRequests == old(closeRequests) + (if hasContext then 1 else 0)
    {
      if hasContext {
        closeRequests := closeRequests + 1;
      }
      return true;
    }
  }
}
