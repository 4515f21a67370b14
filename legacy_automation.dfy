// The first version of the browser automation (automation.js, used by
// bot.js). It differs from src/services/automation.js mainly in where
// exceptions go: most page steps are not wrapped in a try, so a Playwright
// failure propagates to the caller (`Threw`); the reward loop reads the tile
// text and records a screenshot per reached slot instead of an image URL.
module LegacyAutomation {
  import opened Common

  /** What the store page showed to the legacy `startLogin`.
      `navigationOk`: the initial `goto` (outside any try) worked.
      `loginClickOk`: the login button became visible within 5 s and was clicked.
      `nicknameVisible`, `loginVisible`: what the catch block then saw.
      `emailFormOk`: the `#email` field appeared within 4 s and the form was
      filled and submitted. The optional "Sign in with Gameloft" step has its
      failures swallowed and is not observed. */
  datatype LoginPage = LoginPage(navigationOk: bool, loginClickOk: bool, nicknameVisible: bool,
                                 loginVisible: bool, emailFormOk: bool)

  /** What the page showed to the legacy `submitOtp`: whether the code form
      could be filled and submitted, whether revisiting the store worked, and
      whether the login button was then hidden. */
  datatype OtpPage = OtpPage(formOk: bool, revisitOk: bool, loginHidden: bool)

  /** The session check; `navigationOk` and `reloadOk` failing throw. */
  datatype SessionProbe = SessionProbe(navigationOk: bool, loginVisible: bool, reloadOk: bool, loginVisibleAfterReload: bool)

  /** One pass of the legacy reward loop: `preludeOk` for the steps outside
      the inner try; `freeVisible` for the tile appearing and its text being
      read; `tileText` that text; then the click, the claim button, and the
      delay after the claim. */
  datatype SlotProbe = SlotProbe(
    preludeOk: bool,
    freeVisible: bool,
    tileText: string,
    freeClickOk: bool,
    claimVisible: bool,
    claimClickOk: bool,
    settleOk: bool)

  datatype StorePage = StorePage(session: SessionProbe, slot1: SlotProbe, slot2: SlotProbe)
  {
    function SlotAt(i: int): SlotProbe
    {
      if i == 1 then slot1 else slot2
    }
  }

  /** `{count, screenshots}`; each screenshot path `reward_<time>_<i>.png` is
      represented by its pass number `i`. */
  datatype CollectResult = SessionLost | Rewards(count: nat, screenshots: seq<int>)

  const AlreadyLogged: string := "ALREADY_LOGGED"
  const NeedOtp: string := "NEED_OTP"
  const UiNotReady: string := "FAILED: UI_NOT_READY"
  const FreeLabel: string := "Free"

  /** The legacy `startLogin` as a function of what the page showed. */
  function StartLoginOutcome(page: LoginPage): (r: Completion<string>)
    ensures r.Threw? <==> !page.navigationOk
    ensures r == Returned(AlreadyLogged) <==>
      page.navigationOk && !page.loginClickOk && (page.nicknameVisible || !page.loginVisible)
    ensures r == Returned(UiNotReady) <==>
      page.navigationOk && !page.emailFormOk
      && (page.loginClickOk || !(page.nicknameVisible || !page.loginVisible))
  {
    if !page.navigationOk then Threw
    else if !page.loginClickOk && (page.nicknameVisible || !page.loginVisible) then Returned(AlreadyLogged)
    else if page.emailFormOk then Returned(NeedOtp)
    else Returned(UiNotReady)
  }

  /** The rest of the legacy reward loop from pass `i`. */
  function SlotLoop(page: StorePage, i: int, collected: nat, shots: seq<int>): (r: Completion<CollectResult>)
    requires 1 <= i <= 3
    ensures r.Returned? ==> r.value.Rewards?
    decreases 3 - i
  {
    if i == 3 then Returned(Rewards(collected, shots))
    else
      var s := page.SlotAt(i);
      if !s.preludeOk then Threw
      else if !s.freeVisible || Trim(s.tileText) != FreeLabel then Returned(Rewards(collected, shots))
      else if !(s.freeClickOk && s.claimVisible && s.claimClickOk) then Returned(Rewards(collected, shots + [i]))
      else if !s.settleOk then Returned(Rewards(collected + 1, shots + [i]))
      else SlotLoop(page, i + 1, collected + 1, shots + [i])
  }

  /** The legacy `collectRewards`: no outer try, so a failed navigation,
      reload or loop prelude throws to the caller. */
  function Collect(page: StorePage): (r: Completion<CollectResult>)
    ensures r == Returned(SessionLost) <==>
      page.session.navigationOk && page.session.loginVisible
      && page.session.reloadOk && page.session.loginVisibleAfterReload
  {
    var p := page.session;
    if !p.navigationOk then Threw
    else if p.loginVisible && !p.reloadOk then Threw
    else if p.loginVisible && p.loginVisibleAfterReload then Returned(SessionLost)
    else SlotLoop(page, 1, 0, [])
  }

  /** From pass `i`, with one claim and one screenshot per earlier pass, the
      loop ends with at most two claims and with as many screenshots as
      claims or one more (a screenshot taken before a failed click), each
      naming a distinct pass in order. */
  lemma {:induction false} SlotLoopBounds(page: StorePage, i: int, collected: nat, shots: seq<int>)
    requires 1 <= i <= 3 && collected == i - 1 && |shots| == collected
    requires forall k :: 0 <= k < |shots| ==> shots[k] == k + 1
    ensures var r := SlotLoop(page, i, collected, shots);
      r.Returned? ==>
        r.value.count <= 2
        && (|r.value.screenshots| == r.value.count || |r.value.screenshots| == r.value.count + 1)
        && forall k :: 0 <= k < |r.value.screenshots| ==> r.value.screenshots[k] == k + 1
    decreases 3 - i
  {
    if i < 3 {
      var s := page.SlotAt(i);
      if s.preludeOk && s.freeVisible && Trim(s.tileText) == FreeLabel
         && s.freeClickOk && s.claimVisible && s.claimClickOk && s.settleOk {
        SlotLoopBounds(page, i + 1, collected + 1, shots + [i]);
      }
    }
  }

  /** The legacy `collectRewards` reports at most two rewards, and
      `screenshots.length` is `count` or `count + 1`. */
  lemma CollectBounds(page: StorePage)
    ensures var r := Collect(page);
      r.Returned? && r.value.Rewards? ==>
        r.value.count <= 2
        && (|r.value.screenshots| == r.value.count || |r.value.screenshots| == r.value.count + 1)
  {
    var p := page.session;
    if p.navigationOk && !(p.loginVisible && !p.reloadOk) && !(p.loginVisible && p.loginVisibleAfterReload) {
      SlotLoopBounds(page, 1, 0, []);
    }
  }

  /** A tile whose trimmed text is not exactly "Free" ends the loop without
      a claim or a screenshot for that pass; surrounding whitespace alone
      does not. */
  lemma TileTextStopsLoop(page: StorePage, i: int, collected: nat, shots: seq<int>)
    requires 1 <= i <= 2 && page.SlotAt(i).preludeOk && page.SlotAt(i).freeVisible
    ensures Trim(page.SlotAt(i).tileText) != FreeLabel ==>
      SlotLoop(page, i, collected, shots) == Returned(Rewards(collected, shots))
    ensures Trim(page.SlotAt(i).tileText) == FreeLabel && !page.SlotAt(i).freeClickOk ==>
      SlotLoop(page, i, collected, shots) == Returned(Rewards(collected, shots + [i]))
  {
  }

  class Browser {
    const email: string
    const telegramId: int
    var hasContext: bool
    var closeRequests: nat

    constructor (email: string, telegramId: int)
      ensures this.email == email && this.telegramId == telegramId
      ensures !hasContext && closeRequests == 0
    {
      this.email := email;
      this.telegramId := telegramId;
      hasContext := false;
      closeRequests := 0;
    }

    /** `init`: the context is stored before the page is taken from it, so
        a failing `newPage` throws with the context already set. */
    method Init(launch: Launch) returns (threw: bool)
      modifies this`hasContext
      ensures threw <==> !launch.Launched?
      ensures hasContext == (old(hasContext) || !launch.LaunchFailed?)
    {
      if launch.LaunchFailed? {
        return true;
      }
      hasContext := true;
      return !launch.Launched?;
    }

    method StartLogin(page: LoginPage) returns (r: Completion<string>)
      ensures r == StartLoginOutcome(page)
    {
      if !page.navigationOk {
        return Threw;
      }
      if !page.loginClickOk {
        if page.nicknameVisible || !page.loginVisible {
          return Returned(AlreadyLogged);
        }
      }
      if !page.emailFormOk {
        return Returned(UiNotReady);
      }
      return Returned(NeedOtp);
    }

    /** The legacy `submitOtp`: filling the form and revisiting the store
        are not in a try; the result is whether the login button is hidden
        on the store page. */
    method SubmitOtp(code: string, page: OtpPage) returns (r: Completion<bool>)
      ensures r.Threw? <==> !page.formOk || !page.revisitOk
      ensures r.Returned? ==> (r.value <==> page.loginHidden)
    {
      if !page.formOk || !page.revisitOk {
        return Threw;
      }
      return Returned(page.loginHidden);
    }

    method CollectRewards(page: StorePage) returns (r: Completion<CollectResult>)
      ensures r == Collect(page)
    {
      var p := page.session;
      if !p.navigationOk {
        return Threw;
      }
      if p.loginVisible {
        if !p.reloadOk {
          return Threw;
        }
        if p.loginVisibleAfterReload {
          return Returned(SessionLost);
        }
      }
      var collected: nat := 0;
      var screenshots: seq<int> := [];
      var i := 1;
      while i <= 2
        invariant 1 <= i <= 3
        invariant SlotLoop(page, i, collected, screenshots) == Collect(page)
        decreases 3 - i
      {
        var s := page.SlotAt(i);
        if !s.preludeOk {
          return Threw;
        }
        if !s.freeVisible {
          break;
        }
        var text := s.tileText;
        if Trim(text) != FreeLabel {
          break;
        }
        screenshots := screenshots + [i];
        if !s.freeClickOk || !s.claimVisible || !s.claimClickOk {
          break;
        }
        collected := collected + 1;
        if !s.settleOk {
          break;
        }
        i := i + 1;
      }
      return Returned(Rewards(collected, screenshots));
    }

    /** The legacy `close`: `context.close()` is awaited without a catch, so
        a failing close throws to the caller. */
    method Close(closeOk: bool) returns (r: Completion<bool>)
      modifies this`closeRequests
      ensures closeRequests == old(closeRequests) + (if hasContext then 1 else 0)
      ensures r == (if hasContext && !closeOk then Threw else Returned(true))
    {
      if hasContext {
        closeRequests := closeRequests + 1;
        if !closeOk {
          return Threw;
        }
      }
      return Returned(true);
    }
  }
}
