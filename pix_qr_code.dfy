/** The PIX QR code panel's behaviour (components/pix-qr-code.tsx): a
    thirty-minute countdown ticking once a second, a status poll whose
    interval is cleared at the first final answer, the `mm:ss` rendering of the countdown and
    the texts shown for each status. */
module PixQrCode {
  import opened JsText

  const InitialTimeLeft := 1800
  const Pending := "pending"
  const Approved := "approved"
  const Rejected := "rejected"

  // ---------------------------------------------------------------------
  // The countdown step

  /** The `setTimeLeft` updater: one second less, and 0 from 1 down. */
  function NextTimeLeft(prev: int): (next: int)
    ensures next == Max(prev - 1, 0)
    ensures next >= 0 && (prev >= 0 ==> next <= prev)
  {
    if prev <= 1 then 0 else prev - 1
  }

  /** The time left after `n` ticks from `t`. */
  function AfterTicks(t: int, n: nat): int
    decreases n
  {
    if n == 0 then t else AfterTicks(NextTimeLeft(t), n - 1)
  }

  lemma {:induction false} AfterTicksIs(t: int, n: nat)
    requires t >= 0
    ensures AfterTicks(t, n) == Max(t - n, 0)
  {
    if n > 0 {
      AfterTicksIs(NextTimeLeft(t), n - 1);
    }
  }

  /** From the start the countdown reaches 0 exactly after 1800 ticks,
      stays there, and never goes up or below 0 on the way. */
  lemma Countdown(n: nat, m: nat)
    ensures AfterTicks(InitialTimeLeft, n) == 0 <==> n >= InitialTimeLeft
    ensures 0 <= AfterTicks(InitialTimeLeft, n) <= InitialTimeLeft
    ensures n <= m ==> AfterTicks(InitialTimeLeft, m) <= AfterTicks(InitialTimeLeft, n)
  {
    AfterTicksIs(InitialTimeLeft, n);
    AfterTicksIs(InitialTimeLeft, m);
  }

  // ---------------------------------------------------------------------
  // `formatTime`

  /** A number below 100 rendered with `padStart(2, '0')`. */
  function TwoDigits(n: nat): (r: string)
    requires n < 100
    ensures |r| == 2 && AllDigits(r) && DigitsValue(r) == n
  {
    var s := NatToString(n);
    DigitsValueOfNatToString(n);
    if n < 10 then
      DigitsValueLeadingZero(s);
      PadStart2(s)
    else PadStart2(s)
  }

  /** `formatTime`: zero-padded minutes, a colon, zero-padded seconds. */
  function FormatTime(seconds: nat): string {
    PadStart2(NatToString(seconds / 60)) + ":" + PadStart2(NatToString(seconds % 60))
  }

  /** Reads `mm:ss` back as a number of seconds. */
  function ReadTime(t: string): int
    requires |t| == 5 && AllDigits(t[..2]) && AllDigits(t[3..])
  {
    DigitsValue(t[..2]) * 60 + DigitsValue(t[3..])
  }

  /** Below 100 minutes the rendering has five characters, a colon in the
      middle, and reads back as the number of seconds rendered. */
  lemma FormatTimeRoundTrip(seconds: nat)
    requires seconds < 6000
    ensures var t := FormatTime(seconds);
      && |t| == 5 && t[2] == ':'
      && AllDigits(t[..2]) && AllDigits(t[3..])
      && ReadTime(t) == seconds
  {
    var mm, ss := TwoDigits(seconds / 60), TwoDigits(seconds % 60);
    var t := FormatTime(seconds);
    assert t == mm + ":" + ss;
    assert t[..2] == mm && t[3..] == ss;
  }

  // ---------------------------------------------------------------------
  // Status texts

  function StatusText(status: string): string {
    if status == Approved then "Pagamento Aprovado!"
    else if status == Rejected then "Pagamento Rejeitado"
    else "Aguardando Pagamento"
  }

  function StatusDescription(status: string): string {
    if status == Approved then "Seu pagamento foi confirmado. Você receberá o acesso ao produto em breve."
    else if status == Rejected then "O pagamento não foi aprovado. Tente novamente ou entre em contato conosco."
    else "Escaneie o QR Code ou copie o código PIX para pagar."
  }

  /** Every status other than approved and rejected shows the waiting text
      and description, and those two show their own. */
  lemma PendingTextOtherwise(status: string)
    ensures StatusText(status) == "Aguardando Pagamento" <==> status != Approved && status != Rejected
    ensures StatusDescription(status) == "Escaneie o QR Code ou copie o código PIX para pagar."
            <==> status != Approved && status != Rejected
    ensures StatusText(status) == "Pagamento Aprovado!" <==> status == Approved
    ensures StatusText(status) == "Pagamento Rejeitado" <==> status == Rejected
  {
    StatusTextsDiffer();
    DescriptionsDiffer();
  }

  lemma StatusTextsDiffer()
    ensures "Pagamento Aprovado!" != "Pagamento Rejeitado"
    ensures "Pagamento Aprovado!" != "Aguardando Pagamento"
    ensures "Pagamento Rejeitado" != "Aguardando Pagamento"
  {
    assert "Pagamento Aprovado!"[10] != "Pagamento Rejeitado"[10];
    assert |"Pagamento Aprovado!"| != |"Aguardando Pagamento"|;
    assert |"Pagamento Rejeitado"| != |"Aguardando Pagamento"|;
  }

  lemma DescriptionsDiffer()
    ensures "Seu pagamento foi confirmado. Você receberá o acesso ao produto em breve."
            != "Escaneie o QR Code ou copie o código PIX para pagar."
    ensures "O pagamento não foi aprovado. Tente novamente ou entre em contato conosco."
            != "Escaneie o QR Code ou copie o código PIX para pagar."
  {
    assert |"Seu pagamento foi confirmado. Você receberá o acesso ao produto em breve."| != |"Escaneie o QR Code ou copie o código PIX para pagar."|;
    assert |"O pagamento não foi aprovado. Tente novamente ou entre em contato conosco."| != |"Escaneie o QR Code ou copie o código PIX para pagar."|;
  }

  // ---------------------------------------------------------------------
  // The component's state

  /** The panel's state: the countdown, the payment status, whether each of
      the two intervals is still set, how many status fetches are still
      awaiting their answer, and how many times the completion callback has
      fired.  `overlapped` records that a fetch was started while an earlier
      one was still in flight. */
  class PixPanel {
    var timeLeft: int
    var paymentStatus: string
    var timerRunning: bool
    var polling: bool
    var mounted: bool
    var inFlight: nat
    var completions: nat
    const hasCallback: bool
    ghost var overlapped: bool

    ghost predicate Valid()
      reads this
    {
      && 0 <= timeLeft <= InitialTimeLeft
      && (paymentStatus == Pending || paymentStatus == Approved || paymentStatus == Rejected)
      && (mounted ==> (timerRunning <==> timeLeft > 0))
      && (mounted ==> (polling <==> paymentStatus == Pending))
      && (!mounted ==> !timerRunning && !polling)
      && (completions > 0 ==> hasCallback)
      && (!overlapped ==>
            && inFlight <= 1
            && completions <= 1
            && (completions == 1 ==> !polling && inFlight == 0)
            && (completions == 1 && mounted ==> paymentStatus == Approved))
    }

    /** Mounting: thirty minutes left, pending, both intervals set, no fetch
        started yet. */
    constructor (onPaymentComplete: bool)
      ensures Valid()
      ensures timeLeft == InitialTimeLeft && paymentStatus == Pending
      ensures timerRunning && polling && mounted && inFlight == 0 && completions == 0
      ensures hasCallback == onPaymentComplete && !overlapped
    {
      timeLeft := InitialTimeLeft;
      paymentStatus := Pending;
      timerRunning := true;
      polling := true;
      mounted := true;
      inFlight := 0;
      completions := 0;
      hasCallback := onPaymentComplete;
      overlapped := false;
    }

    /** One second: the countdown interval, while set, applies the updater
        and clears itself on reaching 0. */
    method Tick()
      requires Valid()
      modifies this
      ensures Valid()
      ensures timeLeft == (if old(timerRunning) then NextTimeLeft(old(timeLeft)) else old(timeLeft))
      ensures timerRunning == (old(timerRunning) && timeLeft > 0)
      ensures paymentStatus == old(paymentStatus) && polling == old(polling) && inFlight == old(inFlight)
      ensures mounted == old(mounted) && completions == old(completions) && overlapped == old(overlapped)
    {
      if timerRunning {
        var next := NextTimeLeft(timeLeft);
        if next == 0 {
          timerRunning := false;
        }
        timeLeft := next;
      }
    }

    /** Ten seconds: the status interval, while set, starts one more fetch of
        `/api/payment-status`.  Nothing waits for earlier fetches. */
    method Launch()
      requires Valid()
      modifies this
      ensures Valid()
      ensures inFlight == (if old(polling) then old(inFlight) + 1 else old(inFlight))
      ensures overlapped == (old(overlapped) || (old(polling) && old(inFlight) > 0))
      ensures timeLeft == old(timeLeft) && timerRunning == old(timerRunning) && mounted == old(mounted)
      ensures paymentStatus == old(paymentStatus) && polling == old(polling) && completions == old(completions)
    {
      if polling {
        overlapped := overlapped || inFlight > 0;
        inFlight := inFlight + 1;
      }
    }

    /** The answer to one fetch in flight: the `status` read from the reply,
        or a failure.  It is handled whether or not the interval is still
        set: "approved" sets the status, fires the callback and clears the
        interval; "rejected" sets the status and clears the interval; any
        other answer changes nothing.  Once unmounted, the status update is
        discarded but the callback still fires. */
    method Answer(answer: Result<Value, Thrown>)
      requires Valid() && inFlight > 0
      modifies this
      ensures Valid()
      ensures inFlight == old(inFlight) - 1
      ensures answer == Ok(Str(Approved)) ==>
        && paymentStatus == (if mounted then Approved else old(paymentStatus))
        && !polling
        && completions == old(completions) + (if hasCallback then 1 else 0)
      ensures answer == Ok(Str(Rejected)) ==>
        && paymentStatus == (if mounted then Rejected else old(paymentStatus))
        && !polling
        && completions == old(completions)
      ensures answer != Ok(Str(Approved)) && answer != Ok(Str(Rejected)) ==>
        paymentStatus == old(paymentStatus) && polling == old(polling) && completions == old(completions)
      ensures timeLeft == old(timeLeft) && timerRunning == old(timerRunning)
      ensures mounted == old(mounted) && overlapped == old(overlapped)
    {
      inFlight := inFlight - 1;
      if answer == Ok(Str(Approved)) {
        if mounted {
          paymentStatus := Approved;
        }
        if hasCallback {
          completions := completions + 1;
        }
        polling := false;
      } else if answer == Ok(Str(Rejected)) {
        if mounted {
          paymentStatus := Rejected;
        }
        polling := false;
      }
    }

    /** The effect's cleanup: both intervals are cleared; fetches already in
        flight are not cancelled. */
    method Unmount()
      requires Valid()
      modifies this
      ensures Valid()
      ensures !mounted && !timerRunning && !polling
      ensures timeLeft == old(timeLeft) && paymentStatus == old(paymentStatus) && completions == old(completions)
      ensures inFlight == old(inFlight) && overlapped == old(overlapped)
    {
      mounted := false;
      timerRunning := false;
      polling := false;
    }
  }

  /** A run of the panel: ticks, fetch starts, fetch answers and the
      cleanup, in any interleaving. */
  datatype Event = TickEvent | LaunchEvent | AnswerEvent(answer: Result<Value, Thrown>) | UnmountEvent

  /** The number of "approved" answers among the events. */
  function ApprovedAnswers(events: seq<Event>): (n: nat)
    ensures n <= |events|
  {
    if events == [] then 0
    else ApprovedAnswers(events[..|events| - 1])
         + (if events[|events| - 1] == AnswerEvent(Ok(Str(Approved))) then 1 else 0)
  }

  /** Whatever happens, the callback fires only for "approved" answers.  If
      no fetch was ever started while another was in flight, it fires at
      most once, and while mounted the status is then approved.  An answer
      with no fetch in flight cannot occur and is skipped. */
  method Run(onPaymentComplete: bool, events: seq<Event>) returns (panel: PixPanel)
    ensures fresh(panel) && panel.Valid()
    ensures panel.completions <= ApprovedAnswers(events)
    ensures panel.completions > 0 ==> onPaymentComplete
    ensures !panel.overlapped ==> panel.completions <= 1
    ensures !panel.overlapped && panel.completions == 1 && panel.mounted ==> panel.paymentStatus == Approved
  {
    panel := new PixPanel(onPaymentComplete);
    for i := 0 to |events|
      invariant panel.Valid() && panel.hasCallback == onPaymentComplete
      invariant panel.completions <= ApprovedAnswers(events[..i])
    {
      assert events[..i + 1][..i] == events[..i];
      match events[i]
      case TickEvent => panel.Tick();
      case LaunchEvent => panel.Launch();
      case AnswerEvent(answer) =>
        if panel.inFlight > 0 {
          panel.Answer(answer);
        }
      case UnmountEvent => panel.Unmount();
    }
    assert events[..|events|] == events;
  }

  /** Two fetches in flight that both answer "approved" fire the callback
      twice: the interval is cleared only after the first answer, and the
      second one is handled all the same. */
  method OverlappingApprovalsFireTwice() returns (panel: PixPanel)
    ensures panel.overlapped && panel.completions == 2
    ensures panel.paymentStatus == Approved && !panel.polling
  {
    panel := new PixPanel(true);
    panel.Launch();
    panel.Launch();
    panel.Answer(Ok(Str(Approved)));
    panel.Answer(Ok(Str(Approved)));
  }

  /** An "approved" answer followed by a slower "rejected" one leaves the
      status at rejected. */
  method LateRejectionOverwritesApproval() returns (panel: PixPanel)
    ensures panel.paymentStatus == Rejected && panel.completions == 1
  {
    panel := new PixPanel(true);
    panel.Launch();
    panel.Launch();
    panel.Answer(Ok(Str(Approved)));
    panel.Answer(Ok(Str(Rejected)));
  }
}
