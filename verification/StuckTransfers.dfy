/**
 Stuck-transfer diagnosis: one pass over an aggregate's event log that keeps a few
 variables, against what the log says about the transfer as a whole.
 */
module StuckTransfers {
  import opened Common

  /** A share quantity as it is displayed. */
  type Quantity = string

  datatype Location = Issuer | BotWalletUnwrapped | BotWalletWrapped | RedemptionWallet

  datatype Reason =
    | MintAcceptanceFailure
    | WrappingFailure
    | RaindexDepositFailure
    | DetectionFailure
    | RedemptionRejection

  datatype Info = Info(amount: Quantity, location: Location, reason: Reason)

  // ----- Mints -----

  datatype MintEvent =
    | MintRequested(quantity: Quantity)
    | MintRejected
    | MintAccepted
    | MintAcceptanceFailed
    | ProviderCompletionRecovered
    | TokensReceived
    | WrapSubmitted
    | TokensWrapped
    | WrappingFailed
    | VaultDepositSubmitted
    | DepositedIntoRaindex
    | RaindexDepositFailed
    | OperatorReconciled

  /** A persisted log; None is a row that does not parse and is skipped. */
  type MintLog = seq<Option<MintEvent>>

  predicate MintAt(log: MintLog, i: int, event: MintEvent) { 0 <= i < |log| && log[i] == Some(event) }

  predicate ResolvesMint(log: MintLog, i: int)
  {
    MintAt(log, i, MintRejected) || MintAt(log, i, DepositedIntoRaindex) || MintAt(log, i, OperatorReconciled)
  }

  predicate AcceptedBefore(log: MintLog, i: int)
  {
    exists j :: 0 <= j < i && MintAt(log, j, MintAccepted)
  }

  /** A failure that strands tokens; a failed acceptance only after an acceptance. */
  predicate Strands(log: MintLog, i: int)
  {
    || MintAt(log, i, WrappingFailed)
    || MintAt(log, i, RaindexDepositFailed)
    || (MintAt(log, i, MintAcceptanceFailed) && AcceptedBefore(log, i))
  }

  /** Of the first n events, the last stranding failure, with no provider recovery since. */
  predicate DecidesMint(log: MintLog, n: int, i: int)
  {
    && 0 <= i < n && Strands(log, i)
    && forall j :: i < j < n ==> !Strands(log, j) && !MintAt(log, j, ProviderCompletionRecovered)
  }

  predicate RequestedAt(log: MintLog, i: int) { 0 <= i < |log| && log[i].Some? && log[i].value.MintRequested? }

  predicate LastRequest(log: MintLog, n: int, i: int)
  {
    0 <= i < n && RequestedAt(log, i) && forall j :: i < j < n ==> !RequestedAt(log, j)
  }

  function StrandedBy(event: MintEvent): (Location, Reason)
  {
    match event
    case WrappingFailed => (BotWalletUnwrapped, WrappingFailure)
    case RaindexDepositFailed => (BotWalletWrapped, RaindexDepositFailure)
    case _ => (Issuer, MintAcceptanceFailure)
  }

  /** A mint is stuck exactly when nothing in its log resolves it, some stranding failure
      has not been recovered from, and its quantity is known; the diagnosis is that of the
      last such failure and the last requested quantity. */
  method StuckMintInfo(log: MintLog) returns (info: Option<Info>)
    ensures info.Some? <==>
              && (forall i :: 0 <= i < |log| ==> !ResolvesMint(log, i))
              && (exists i :: DecidesMint(log, |log|, i))
              && (exists q :: LastRequest(log, |log|, q))
    ensures forall i, q :: info.Some? && DecidesMint(log, |log|, i) && LastRequest(log, |log|, q) ==>
              info.value == Info(log[q].value.quantity, StrandedBy(log[i].value).0, StrandedBy(log[i].value).1)
  {
    var quantity: Option<Quantity>, accepted, terminal: Option<(Location, Reason)> := None, false, None;
    ghost var request, failure, recovery := -1, -1, -1;
    for n := 0 to |log|
      invariant forall i :: 0 <= i < n ==> !ResolvesMint(log, i)
      invariant accepted <==> AcceptedBefore(log, n)
      invariant quantity.Some? ==> LastRequest(log, n, request) && quantity.value == log[request].value.quantity
      invariant quantity.None? ==> forall i :: 0 <= i < n ==> !RequestedAt(log, i)
      invariant -1 <= recovery < n && (recovery >= 0 ==> MintAt(log, recovery, ProviderCompletionRecovered))
      invariant terminal.Some? ==> DecidesMint(log, n, failure) && terminal.value == StrandedBy(log[failure].value)
      invariant terminal.None? ==> forall i :: recovery < i < n ==> !Strands(log, i)
    {
      if log[n].None? { continue; }
      match log[n].value {
        case MintRequested(requested) => quantity, request := Some(requested), n;
        case MintAccepted => accepted := true; assert MintAt(log, n, MintAccepted);
        case MintAcceptanceFailed => if accepted { terminal, failure := Some((Issuer, MintAcceptanceFailure)), n; }
        case WrappingFailed => terminal, failure := Some((BotWalletUnwrapped, WrappingFailure)), n;
        case RaindexDepositFailed => terminal, failure := Some((BotWalletWrapped, RaindexDepositFailure)), n;
        case MintRejected => assert ResolvesMint(log, n); return None;
        case DepositedIntoRaindex => assert ResolvesMint(log, n); return None;
        case OperatorReconciled => assert ResolvesMint(log, n); return None;
        case ProviderCompletionRecovered => terminal, recovery := None, n;
        case _ =>
      }
    }
    if terminal.None? || quantity.None? { return None; }
    return Some(Info(quantity.value, terminal.value.0, terminal.value.1));
  }

  /** What the words of that diagnosis stand for, event by event. */
  lemma MintWords(log: MintLog, n: int, i: int)
    requires n <= |log|
    ensures 0 <= i < |log| ==>
              (ResolvesMint(log, i) <==>
                 log[i] == Some(MintRejected) || log[i] == Some(DepositedIntoRaindex)
                 || log[i] == Some(OperatorReconciled))
    ensures DecidesMint(log, n, i) <==>
              && 0 <= i < n
              && (|| log[i] == Some(WrappingFailed) || log[i] == Some(RaindexDepositFailed)
                  || (log[i] == Some(MintAcceptanceFailed) && Some(MintAccepted) in log[..i]))
              && forall j :: i < j < n ==>
                   && log[j] != Some(WrappingFailed) && log[j] != Some(RaindexDepositFailed)
                   && log[j] != Some(ProviderCompletionRecovered)
                   && (log[j] == Some(MintAcceptanceFailed) ==> Some(MintAccepted) !in log[..j])
    ensures LastRequest(log, n, i) <==>
              && 0 <= i < n && log[i].Some? && log[i].value.MintRequested?
              && forall j :: i < j < n && log[j].Some? ==> !log[j].value.MintRequested?
  {
    forall j | 0 <= j < |log| ensures AcceptedBefore(log, j) <==> Some(MintAccepted) in log[..j] {
      if AcceptedBefore(log, j) {
        var k :| 0 <= k < j && MintAt(log, k, MintAccepted);
        assert log[..j][k] == Some(MintAccepted);
      }
      if Some(MintAccepted) in log[..j] {
        var k :| 0 <= k < j && log[..j][k] == Some(MintAccepted);
        assert MintAt(log, k, MintAccepted);
      }
    }
    assert forall j :: 0 <= j < |log| ==> (RequestedAt(log, j) <==> log[j].Some? && log[j].value.MintRequested?);
    forall j ensures 0 <= j < |log| ==>
        (Strands(log, j) <==>
           || log[j] == Some(WrappingFailed) || log[j] == Some(RaindexDepositFailed)
           || (log[j] == Some(MintAcceptanceFailed) && Some(MintAccepted) in log[..j]))
    {
    }
  }

  /** Where a failure leaves the tokens, and why. */
  lemma MintPlaces()
    ensures StrandedBy(MintAcceptanceFailed) == (Issuer, MintAcceptanceFailure)
    ensures StrandedBy(WrappingFailed) == (BotWalletUnwrapped, WrappingFailure)
    ensures StrandedBy(RaindexDepositFailed) == (BotWalletWrapped, RaindexDepositFailure)
  {
  }

  // ----- Redemptions -----

  datatype RedemptionEvent =
    | VaultWithdrawPending(quantity: Quantity)
    | VaultWithdrawSubmitted(quantity: Quantity)
    | WithdrawnFromRaindex(quantity: Quantity, wrapped: nat, actualWrapped: Option<nat>)
    | UnwrapPending
    | UnwrapSubmitted
    | TokensUnwrapped(recorded: Option<Quantity>, unwrapped: nat)
    | SendPending
    | TokensSent
    | Detected
    | DetectionFailed
    | RedemptionRejected
    | TransferFailed
    | Completed
    | RedemptionRecovered
    | RedemptionReconciled

  type RedemptionLog = seq<Option<RedemptionEvent>>

  predicate At(log: RedemptionLog, i: int, event: RedemptionEvent) { 0 <= i < |log| && log[i] == Some(event) }

  predicate Resolves(log: RedemptionLog, i: int)
  {
    || At(log, i, TransferFailed) || At(log, i, Completed)
    || At(log, i, RedemptionRecovered) || At(log, i, RedemptionReconciled)
  }

  predicate SentBefore(log: RedemptionLog, i: int)
  {
    exists j :: 0 <= j < i && At(log, j, TokensSent)
  }

  predicate Loses(log: RedemptionLog, i: int)
  {
    (At(log, i, DetectionFailed) || At(log, i, RedemptionRejected)) && SentBefore(log, i)
  }

  predicate Decides(log: RedemptionLog, n: int, i: int)
  {
    0 <= i < n && Loses(log, i) && forall j :: i < j < n ==> !Loses(log, j)
  }

  function LostBy(event: RedemptionEvent): Reason
  {
    if event.DetectionFailed? then DetectionFailure else RedemptionRejection
  }

  predicate UnwrappedAt(log: RedemptionLog, i: int) { 0 <= i < |log| && log[i].Some? && log[i].value.TokensUnwrapped? }

  predicate WithdrawnAt(log: RedemptionLog, i: int)
  {
    0 <= i < |log| && log[i].Some? && log[i].value.WithdrawnFromRaindex?
  }

  predicate RequestsAt(log: RedemptionLog, i: int)
  {
    && 0 <= i < |log| && log[i].Some?
    && (|| log[i].value.VaultWithdrawPending? || log[i].value.VaultWithdrawSubmitted?
        || log[i].value.WithdrawnFromRaindex?)
  }

  predicate LastUnwrap(log: RedemptionLog, n: int, i: int)
  {
    0 <= i < n && UnwrappedAt(log, i) && forall j :: i < j < n ==> !UnwrappedAt(log, j)
  }

  predicate LastWithdrawal(log: RedemptionLog, n: int, i: int)
  {
    0 <= i < n && WithdrawnAt(log, i) && forall j :: i < j < n ==> !WithdrawnAt(log, j)
  }

  predicate FirstRequest(log: RedemptionLog, n: int, i: int)
  {
    0 <= i < n && RequestsAt(log, i) && forall j :: 0 <= j < i ==> !RequestsAt(log, j)
  }

  /** The quantity an unwrap left in the wallet: recorded, or converted from the amount. */
  function Unwrapped(event: RedemptionEvent, shares: nat -> Option<Quantity>): Option<Quantity>
    requires event.TokensUnwrapped?
  {
    if event.recorded.Some? then event.recorded else shares(event.unwrapped)
  }

  function Withdrawn(event: RedemptionEvent): nat
    requires event.WithdrawnFromRaindex?
  {
    if event.actualWrapped.Some? then event.actualWrapped.value else event.wrapped
  }

  /** What three optional sources say together: the first that has a quantity. */
  function FirstKnown(unwrapped: Option<Quantity>, withdrawn: Option<Quantity>,
                      requested: Option<Quantity>): Option<Quantity>
  {
    if unwrapped.Some? then unwrapped else if withdrawn.Some? then withdrawn else requested
  }

  /** The positions are the last unwrap, the last withdrawal and the first request among
      the first n events, each -1 when there is none. */
  ghost predicate Determines(log: RedemptionLog, n: int, unwrap: int, withdrawal: int, request: int)
  {
    && (LastUnwrap(log, n, unwrap) || (unwrap == -1 && forall i :: 0 <= i < n ==> !UnwrappedAt(log, i)))
    && (LastWithdrawal(log, n, withdrawal) || (withdrawal == -1 && forall i :: 0 <= i < n ==> !WithdrawnAt(log, i)))
    && (FirstRequest(log, n, request) || (request == -1 && forall i :: 0 <= i < n ==> !RequestsAt(log, i)))
  }

  function UnwrappedIn(log: RedemptionLog, n: nat, shares: nat -> Option<Quantity>): Option<Quantity>
  {
    if n == 0 then None
    else if UnwrappedAt(log, n - 1) then Unwrapped(log[n - 1].value, shares)
    else UnwrappedIn(log, n - 1, shares)
  }

  function WithdrawnIn(log: RedemptionLog, n: nat): Option<nat>
  {
    if n == 0 then None
    else if WithdrawnAt(log, n - 1) then Some(Withdrawn(log[n - 1].value))
    else WithdrawnIn(log, n - 1)
  }

  function RequestedIn(log: RedemptionLog, n: nat): Option<Quantity>
  {
    if n == 0 then None
    else if RequestedIn(log, n - 1).None? && RequestsAt(log, n - 1) then Some(log[n - 1].value.quantity)
    else RequestedIn(log, n - 1)
  }

  function Amount(log: RedemptionLog, shares: nat -> Option<Quantity>): Option<Quantity>
  {
    var withdrawn := WithdrawnIn(log, |log|);
    FirstKnown(UnwrappedIn(log, |log|, shares),
               if withdrawn.Some? then shares(withdrawn.value) else None,
               RequestedIn(log, |log|))
  }

  lemma {:induction false} UnwrappedIsLast(log: RedemptionLog, shares: nat -> Option<Quantity>, n: nat, u: int)
    requires LastUnwrap(log, n, u) || (u == -1 && forall i :: 0 <= i < n ==> !UnwrappedAt(log, i))
    ensures UnwrappedIn(log, n, shares) == if UnwrappedAt(log, u) then Unwrapped(log[u].value, shares) else None
  {
    if n > 0 && !UnwrappedAt(log, n - 1) { UnwrappedIsLast(log, shares, n - 1, u); }
  }

  lemma {:induction false} WithdrawnIsLast(log: RedemptionLog, n: nat, w: int)
    requires LastWithdrawal(log, n, w) || (w == -1 && forall i :: 0 <= i < n ==> !WithdrawnAt(log, i))
    ensures WithdrawnIn(log, n) == if WithdrawnAt(log, w) then Some(Withdrawn(log[w].value)) else None
  {
    if n > 0 && !WithdrawnAt(log, n - 1) { WithdrawnIsLast(log, n - 1, w); }
  }

  lemma {:induction false} RequestedIsFirst(log: RedemptionLog, n: nat, q: int)
    requires FirstRequest(log, n, q) || (q == -1 && forall i :: 0 <= i < n ==> !RequestsAt(log, i))
    ensures RequestedIn(log, n) == if RequestsAt(log, q) then Some(log[q].value.quantity) else None
  {
    if n > 0 { RequestedIsFirst(log, n - 1, if q == n - 1 then -1 else q); }
  }

  /** The amount is the last unwrapped quantity if there is one and it is known, recorded
      or by conversion; else the last withdrawn amount, the actual one if given, if it
      converts; else the first requested quantity. */
  lemma AmountIsDetermined(log: RedemptionLog, shares: nat -> Option<Quantity>, u: int, w: int, q: int)
    requires Determines(log, |log|, u, w, q)
    ensures Amount(log, shares) ==
            var unwrapped :=
              if u == -1 then None
              else match log[u] case Some(TokensUnwrapped(Some(recorded), _)) => Some(recorded)
                                case Some(TokensUnwrapped(None, amount)) => shares(amount)
                                case _ => None;
            var withdrawn :=
              if w == -1 then None
              else match log[w] case Some(WithdrawnFromRaindex(_, _, Some(actual))) => shares(actual)
                                case Some(WithdrawnFromRaindex(_, wrapped, None)) => shares(wrapped)
                                case _ => None;
            if unwrapped.Some? then unwrapped
            else if withdrawn.Some? then withdrawn
            else if q == -1 then None
            else match log[q] case Some(VaultWithdrawPending(quantity)) => Some(quantity)
                              case Some(VaultWithdrawSubmitted(quantity)) => Some(quantity)
                              case Some(WithdrawnFromRaindex(quantity, _, _)) => Some(quantity)
                              case _ => None
  {
    UnwrappedIsLast(log, shares, |log|, u);
    WithdrawnIsLast(log, |log|, w);
    RequestedIsFirst(log, |log|, q);
  }

  /** What the words of the diagnosis stand for, event by event. */
  lemma RedemptionWords(log: RedemptionLog, n: int, i: int)
    requires n <= |log|
    ensures 0 <= i < |log| ==>
              (Resolves(log, i) <==>
                 || log[i] == Some(TransferFailed) || log[i] == Some(Completed)
                 || log[i] == Some(RedemptionRecovered) || log[i] == Some(RedemptionReconciled))
    ensures Decides(log, n, i) <==>
              && 0 <= i < n && Some(TokensSent) in log[..i]
              && (log[i] == Some(DetectionFailed) || log[i] == Some(RedemptionRejected))
              && forall j :: i < j < n ==> log[j] != Some(DetectionFailed) && log[j] != Some(RedemptionRejected)
    ensures LostBy(DetectionFailed) == DetectionFailure && LostBy(RedemptionRejected) == RedemptionRejection
    ensures LastUnwrap(log, n, i) <==>
              && 0 <= i < n && log[i].Some? && log[i].value.TokensUnwrapped?
              && forall j :: i < j < n && log[j].Some? ==> !log[j].value.TokensUnwrapped?
    ensures LastWithdrawal(log, n, i) <==>
              && 0 <= i < n && log[i].Some? && log[i].value.WithdrawnFromRaindex?
              && forall j :: i < j < n && log[j].Some? ==> !log[j].value.WithdrawnFromRaindex?
    ensures FirstRequest(log, n, i) <==>
              && 0 <= i < n && log[i].Some?
              && (|| log[i].value.VaultWithdrawPending? || log[i].value.VaultWithdrawSubmitted?
                  || log[i].value.WithdrawnFromRaindex?)
              && forall j :: 0 <= j < i && log[j].Some? ==>
                   && !log[j].value.VaultWithdrawPending? && !log[j].value.VaultWithdrawSubmitted?
                   && !log[j].value.WithdrawnFromRaindex?
  {
    assert forall j :: 0 <= j < |log| ==>
             && (UnwrappedAt(log, j) <==> log[j].Some? && log[j].value.TokensUnwrapped?)
             && (WithdrawnAt(log, j) <==> log[j].Some? && log[j].value.WithdrawnFromRaindex?)
             && (RequestsAt(log, j) <==>
                   log[j].Some? && (|| log[j].value.VaultWithdrawPending? || log[j].value.VaultWithdrawSubmitted?
                                    || log[j].value.WithdrawnFromRaindex?));
    forall j | 0 <= j < |log| ensures SentBefore(log, j) <==> Some(TokensSent) in log[..j] {
      if SentBefore(log, j) {
        var k :| 0 <= k < j && At(log, k, TokensSent);
        assert log[..j][k] == Some(TokensSent);
      }
      if Some(TokensSent) in log[..j] {
        var k :| 0 <= k < j && log[..j][k] == Some(TokensSent);
        assert At(log, k, TokensSent);
      }
    }
    if 0 <= i < n && Some(TokensSent) in log[..i] {
      forall j | i < j < n ensures Some(TokensSent) in log[..j] {
        var k :| 0 <= k < i && log[..i][k] == Some(TokensSent);
        assert log[..j][k] == Some(TokensSent);
      }
      forall j | i < j < n
        ensures Loses(log, j) <==> log[j] == Some(DetectionFailed) || log[j] == Some(RedemptionRejected)
      {
      }
    }
  }

  /** A redemption is stuck exactly when nothing resolves it, some failure came after its
      tokens were sent, and an amount can be told; the diagnosis is that of the last such
      failure. */
  method StuckRedemptionInfo(log: RedemptionLog, shares: nat -> Option<Quantity>) returns (info: Option<Info>)
    ensures info.Some? <==>
              && (forall i :: 0 <= i < |log| ==> !Resolves(log, i))
              && (exists i :: Decides(log, |log|, i))
              && Amount(log, shares).Some?
    ensures forall i :: Decides(log, |log|, i) && info.Some? ==>
              info.value == Info(Amount(log, shares).value, RedemptionWallet, LostBy(log[i].value))
  {
    var requested: Option<Quantity>, withdrawn: Option<nat>, unwrapped: Option<Quantity> := None, None, None;
    var sent, terminal: Option<Reason> := false, None;
    ghost var failure := -1;
    for n := 0 to |log|
      invariant forall i :: 0 <= i < n ==> !Resolves(log, i)
      invariant sent <==> SentBefore(log, n)
      invariant unwrapped == UnwrappedIn(log, n, shares) && withdrawn == WithdrawnIn(log, n)
      invariant requested == RequestedIn(log, n)
      invariant terminal.Some? ==> Decides(log, n, failure) && terminal.value == LostBy(log[failure].value)
      invariant terminal.None? ==> forall i :: 0 <= i < n ==> !Loses(log, i)
    {
      if log[n].None? { continue; }
      match log[n].value {
        case VaultWithdrawPending(quantity) => if requested.None? { requested := Some(quantity); }
        case VaultWithdrawSubmitted(quantity) => if requested.None? { requested := Some(quantity); }
        case WithdrawnFromRaindex(quantity, wrapped, actual) =>
          if requested.None? { requested := Some(quantity); }
          withdrawn := Some(if actual.Some? then actual.value else wrapped);
        case TokensUnwrapped(recorded, amount) => unwrapped := if recorded.Some? then recorded else shares(amount);
        case TokensSent => sent := true; assert At(log, n, TokensSent);
        case DetectionFailed => if sent { terminal, failure := Some(DetectionFailure), n; }
        case RedemptionRejected => if sent { terminal, failure := Some(RedemptionRejection), n; }
        case TransferFailed => assert Resolves(log, n); return None;
        case Completed => assert Resolves(log, n); return None;
        case RedemptionRecovered => assert Resolves(log, n); return None;
        case RedemptionReconciled => assert Resolves(log, n); return None;
        case _ =>
      }
    }
    var amount := FirstKnown(unwrapped, if withdrawn.Some? then shares(withdrawn.value) else None, requested);
    if terminal.None? || amount.None? { return None; }
    return Some(Info(amount.value, RedemptionWallet, terminal.value));
  }
}
