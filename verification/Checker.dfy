// The credential checking machine (kernel/src/process_checker.rs).

module Checker {
  import opened Wrappers
  import opened Footers

  datatype Metadata = Metadata(value: nat)

  // What a policy answers for a credential whose check it has started.
  datatype CheckResult = Accept(metadata: Option<Metadata>) | Pass | Reject
  datatype Answer = Answered(result: CheckResult) | CheckFailed

  // What a policy returns when asked to start a check.
  datatype Start = Started | NoSupport | Already | StartError

  // A policy, by footer number: a machine asks it about each footer at most
  // once, so its replies may depend on anything that happened before.
  datatype Policy = Policy(requireCredentials: bool, start: nat -> Start, answer: nat -> Answer)

  datatype CheckError = CredentialsNotAccepted | CredentialsRejected(index: nat) | InternalError

  datatype Accepted = Accepted(credential: Credentials, metadata: Option<Metadata>)

  type Verdict = Result<Option<Accepted>, CheckError>

  datatype ProcessBinary = ProcessBinary(name: string, footers: seq<Byte>)

  datatype FooterCheckResult = Checking | PastLastFooter | FooterNotCheckable | BadFooter | Error

  // ------------------------------------------------ the reference: one scan

  // End of the footers, or a malformed one.
  function AtEnd(p: Policy): Verdict {
    if p.requireCredentials then Err(CredentialsNotAccepted) else Ok(None)
  }

  // One left-to-right pass over footers i, i + 1, ..., each parsed once and
  // answered as soon as it is started.
  function Scan(footers: seq<Byte>, p: Policy, i: nat): Verdict
    decreases |footers|
  {
    match ParseFooter(footers)
    case Err(_) => AtEnd(p)
    case Ok((credential, _)) =>
      match Decides(credential, p, i)
      case Some(verdict) => verdict
      case None => Scan(Rest(footers), p, i + 1)
  }

  // The verdict footer i forces on its own, if any.
  function Decides(credential: Credentials, p: Policy, i: nat): Option<Verdict> {
    match p.start(i)
    case StartError => Some(Err(CheckError.InternalError))
    case NoSupport => None
    case Already => None
    case Started =>
      match p.answer(i)
      case Answered(Accept(metadata)) => Some(Ok(Some(Accepted(credential, metadata))))
      case Answered(Reject) => Some(Err(CredentialsRejected(i)))
      case Answered(Pass) => None
      case CheckFailed => None
  }

  // What the machine still has to report when it stands at footer i.
  function Remaining(b: ProcessBinary, p: Policy, i: nat): Verdict
    decreases |Parsed(b.footers)| - i
  {
    if i >= |Parsed(b.footers)| then AtEnd(p)
    else
      match Decides(Parsed(b.footers)[i], p, i)
      case Some(verdict) => verdict
      case None => Remaining(b, p, i + 1)
  }

  lemma {:induction false} RemainingIsScan(b: ProcessBinary, p: Policy, i: nat)
    requires i <= |Parsed(b.footers)|
    ensures Remaining(b, p, i) == Scan(After(b.footers, i), p, i)
    decreases |Parsed(b.footers)| - i
  {
    if i < |Parsed(b.footers)| {
      AfterNext(b.footers, i);
      assert Parsed(After(b.footers, i))[0] == Parsed(b.footers)[i];
      RemainingIsScan(b, p, i + 1);
    } else {
      assert Parsed(After(b.footers, i)) == [];
    }
  }

  // The policy does not look at footer j, passes it over, or fails to check it.
  predicate Ignores(p: Policy, j: nat) {
    || p.start(j) == NoSupport || p.start(j) == Already
    || (p.start(j) == Started && (p.answer(j) == Answered(Pass) || p.answer(j) == CheckFailed))
  }

  lemma {:induction false} IgnoredSkipped(b: ProcessBinary, p: Policy, n: nat)
    requires n <= |Parsed(b.footers)| && forall j :: 0 <= j < n ==> Ignores(p, j)
    ensures Remaining(b, p, 0) == Remaining(b, p, n)
    decreases n
  {
    if n > 0 {
      IgnoredSkipped(b, p, n - 1);
      assert Ignores(p, n - 1);
    }
  }

  // The first footer that is not ignored decides: a credential that cannot be
  // checked is an error, a rejected one rejects the binary and an accepted one
  // accepts it, whatever follows.
  lemma FirstDecisive(b: ProcessBinary, p: Policy, n: nat)
    requires n < |Parsed(b.footers)| && forall j :: 0 <= j < n ==> Ignores(p, j)
    ensures p.start(n) == StartError ==> Scan(b.footers, p, 0) == Err(CheckError.InternalError)
    ensures p.start(n) == Started && p.answer(n) == Answered(Reject) ==>
              Scan(b.footers, p, 0) == Err(CredentialsRejected(n))
    ensures p.start(n) == Started && p.answer(n).Answered? && p.answer(n).result.Accept? ==>
              Scan(b.footers, p, 0) == Ok(Some(Accepted(Parsed(b.footers)[n], p.answer(n).result.metadata)))
  {
    IgnoredSkipped(b, p, n);
    RemainingIsScan(b, p, 0);
  }

  // If all are ignored, the binary passes unless credentials are required.
  lemma NoneDecisive(b: ProcessBinary, p: Policy)
    requires forall j :: 0 <= j < |Parsed(b.footers)| ==> Ignores(p, j)
    ensures Scan(b.footers, p, 0) == if p.requireCredentials then Err(CredentialsNotAccepted) else Ok(None)
  {
    IgnoredSkipped(b, p, |Parsed(b.footers)|);
    RemainingIsScan(b, p, 0);
  }

  // ------------------------------------------------------------ the machine

  // What check_footer is to return for footer n.
  function FooterResult(b: ProcessBinary, p: Policy, n: nat): FooterCheckResult {
    if n < |Parsed(b.footers)| then
      match p.start(n)
      case Started => Checking
      case NoSupport => FooterNotCheckable
      case Already => FooterNotCheckable
      case StartError => Error
    else if EndError(b.footers) == NotEnoughFlash then PastLastFooter
    else BadFooter
  }

  // Re-parses from the first footer up to footer `next`.
  method CheckFooter(b: ProcessBinary, p: Policy, next: nat) returns (r: FooterCheckResult)
    ensures r == FooterResult(b, p, next)
  {
    var footerSlice := b.footers;
    var current := 0;
    while current <= next
      invariant current <= next && current <= |Parsed(b.footers)|
      invariant footerSlice == After(b.footers, current)
    {
      match ParseFooter(footerSlice) {
        case Err(NotEnoughFlash) =>
          return PastLastFooter;
        case Err(_) =>
          return BadFooter;
        case Ok((credential, len)) =>
          AfterNext(b.footers, current);
          footerSlice := footerSlice[len + 4..];
          if current == next {
            match p.start(next) {
              case Started => return Checking;
              case NoSupport => return FooterNotCheckable;
              case Already => return FooterNotCheckable;
              case StartError => return Error;
            }
          }
      }
      current := current + 1;
    }
    assert false;
  }

  class ProcessCheckerMachine {
    var hasClient: bool
    var policy: Option<Policy>
    var processBinary: Option<ProcessBinary>
    var footerIndex: nat

    // The calls made to the client's `done`, oldest first.
    var reported: seq<(ProcessBinary, Verdict)>

    constructor (p: Policy)
      ensures !hasClient && policy == Some(p) && processBinary.None? && footerIndex == 0 && reported == []
    {
      hasClient, policy, processBinary, footerIndex, reported := false, Some(p), None, 0, [];
    }

    method SetClient()
      modifies this`hasClient
      ensures hasClient
    {
      hasClient := true;
    }

    // The check of the current footer has been started and not yet answered.
    ghost predicate Awaiting()
      reads this
    {
      && hasClient && policy.Some? && processBinary.Some?
      && footerIndex < |Parsed(processBinary.value.footers)| && policy.value.start(footerIndex) == Started
    }

    // The check of b is still under way, or has just reported `total`.
    ghost predicate OnceOf(b: ProcessBinary, p: Policy, total: Verdict, before: seq<(ProcessBinary, Verdict)>)
      reads this
    {
      || (&& Awaiting() && policy == Some(p) && processBinary == Some(b)
          && Remaining(b, p, footerIndex) == total && reported == before)
      || (hasClient && policy == Some(p) && processBinary.None? && reported == before + [(b, total)])
    }

    method Done(b: ProcessBinary, verdict: Verdict)
      modifies this`reported
      ensures reported == old(reported) + if hasClient then [(b, verdict)] else []
    {
      if hasClient { reported := reported + [(b, verdict)]; }
    }

    // Either reports what remains from the current footer on, or stops at a
    // later footer whose check has started and from which as much remains.
    method Next() returns (r: Result<(), CheckError>)
      modifies this`processBinary, this`footerIndex, this`reported
      ensures old(footerIndex) <= footerIndex
      ensures old(policy.None? || processBinary.None?) ==>
                && r == Err(CheckError.InternalError) && footerIndex == old(footerIndex)
                && processBinary == old(processBinary) && reported == old(reported)
      ensures old(hasClient && policy.Some? && processBinary.Some?) ==>
                var b, p := old(processBinary.value), policy.value;
                r == Ok(()) && OnceOf(b, p, Remaining(b, p, old(footerIndex)), old(reported))
    {
      if policy.None? || processBinary.None? { return Err(CheckError.InternalError); }
      var p, pb := policy.value, processBinary.value;
      processBinary := None;
      while true
        invariant old(footerIndex) <= footerIndex
        invariant processBinary.None? && reported == old(reported)
        invariant Remaining(pb, p, footerIndex) == Remaining(pb, p, old(footerIndex))
        decreases |Parsed(pb.footers)| - footerIndex
      {
        var result := CheckFooter(pb, p, footerIndex);
        match result {
          case Checking =>
            processBinary := Some(pb);
            break;
          case FooterNotCheckable =>
            footerIndex := footerIndex + 1;
          case Error =>
            Done(pb, Err(CheckError.InternalError));
            break;
          case _ =>
            Done(pb, if p.requireCredentials then Err(CredentialsNotAccepted) else Ok(None));
            break;
        }
      }
      return Ok(());
    }

    method Check(b: ProcessBinary) returns (r: Result<(), CheckError>)
      modifies this`processBinary, this`footerIndex, this`reported
      ensures policy.None? ==> r == Err(CheckError.InternalError) && reported == old(reported)
      ensures hasClient && policy.Some? ==>
                r == Ok(()) && OnceOf(b, policy.value, Scan(b.footers, policy.value, 0), old(reported))
    {
      footerIndex := 0;
      processBinary := Some(b);
      if policy.Some? { RemainingIsScan(b, policy.value, 0); }
      r := Next();
    }

    method CheckDone(answer: Answer, credential: Credentials)
      modifies this`processBinary, this`footerIndex, this`reported
      ensures old(footerIndex) <= footerIndex
      // With no check under way nothing is reported.
      ensures old(processBinary.None?) ==> processBinary.None? && reported == old(reported)
      // The answer to the check under way moves it on or ends it.
      ensures old(Awaiting()) ==>
                var b, p, i := old(processBinary.value), policy.value, old(footerIndex);
                answer == p.answer(i) && credential == Parsed(b.footers)[i] ==>
                  && OnceOf(b, p, Remaining(b, p, i), old(reported))
                  && (processBinary.Some? ==> i < footerIndex)
                  && (answer == Answered(Reject) ==> reported == old(reported) + [(b, Err(CredentialsRejected(i)))])
                  && (answer.Answered? && answer.result.Accept? ==>
                        reported == old(reported) + [(b, Ok(Some(Accepted(credential, answer.result.metadata))))])
    {
      var cont := false;
      match answer {
        case Answered(Accept(metadata)) =>
          if hasClient && processBinary.Some? {
            var pb := processBinary.value;
            processBinary := None;
            Done(pb, Ok(Some(Accepted(credential, metadata))));
          }
        case Answered(Reject) =>
          if hasClient && processBinary.Some? {
            var pb := processBinary.value;
            processBinary := None;
            Done(pb, Err(CredentialsRejected(footerIndex)));
          }
        case _ =>
          footerIndex := footerIndex + 1;
          cont := true;
      }
      if cont { var _ := Next(); }
    }

    // A whole check, each started footer being answered once: `done` is called
    // exactly once, with the verdict of a single scan.
    method CheckToCompletion(b: ProcessBinary)
      requires hasClient && policy.Some?
      modifies this`processBinary, this`footerIndex, this`reported
      ensures processBinary.None?
      ensures reported == old(reported) + [(b, Scan(b.footers, policy.value, 0))]
    {
      var p := policy.value;
      ghost var total := Scan(b.footers, p, 0);
      var _ := Check(b);
      while processBinary.Some?
        invariant OnceOf(b, p, total, old(reported))
        decreases |Parsed(b.footers)| - footerIndex, processBinary.Some?
      {
        CheckDone(p.answer(footerIndex), Parsed(b.footers)[footerIndex]);
      }
    }
  }
}
