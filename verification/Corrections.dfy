/** The two bounded corrective loops: the Agent Engine client's
    (ae_client.py) and the local adapter's (facilitator_adapter.py). */
module Corrections {
  import opened Common
  import opened Facilitator
  import opened TurnRules

  const CORRECTIVE_MAX := 2

  predicate Valid(request: Request, output: Option<TurnOutput>) {
    output.Some? && ValidateTurn(output.value, request) == Verdict.Valid
  }

  /** One corrective round trip. A reply may fail the schema; an ambiguous
      failure is reconciled with the history; any other failure is not. */
  datatype Exchange =
    | Replied(output: Option<TurnOutput>)
    | Ambiguous(recovered: Option<TurnOutput>)
    | Lost

  datatype Result =
    | Checked(output: TurnOutput, corrections: nat)
    | DelegationValidation
    | SchemaInvalid
    | Failed

  /** The output an exchange yields; a failed one yields none and ends the loop. */
  predicate Breaks(x: Exchange) { x.Lost? || (x.Ambiguous? && x.recovered.None?) }

  function Yield(x: Exchange): (r: Option<TurnOutput>)
    ensures forall o :: r == Some(o) <==> x == Replied(Some(o)) || x == Ambiguous(Some(o))
  {
    match x
    case Replied(output) => output
    case Ambiguous(recovered) => recovered
    case Lost => None
  }

  // -- the loops ------------------------------------------------------------------------

  /** `_turn_with_corrections`: `sent` counts the re-prompts. */
  method AeLoop(request: Request, first: TurnOutput, exchanges: seq<Exchange>) returns (r: Result, sent: nat)
    requires |exchanges| >= CORRECTIVE_MAX
    ensures r == Corrected(request, Some(first), exchanges, 0, CORRECTIVE_MAX)
    ensures sent <= 2
    ensures r.Checked? ==> r.corrections == sent && Valid(request, Some(r.output))
  {
    var corrections := 0;
    var output := Some(first);
    while true
      invariant corrections <= CORRECTIVE_MAX
      invariant Corrected(request, Some(first), exchanges, 0, CORRECTIVE_MAX) ==
              Corrected(request, output, exchanges, corrections, CORRECTIVE_MAX)
      decreases CORRECTIVE_MAX - corrections
    {
      if output.Some? {
        var verdict := ValidateTurn(output.value, request);
        if verdict.Valid? {
          return Checked(output.value, corrections), corrections;
        }
      }
      if corrections >= CORRECTIVE_MAX {
        return DelegationValidation, corrections;
      }
      var x := exchanges[corrections];
      corrections := corrections + 1;
      match x {
        case Replied(o) => output := o;
        case Ambiguous(recovered) =>
          if recovered.None? {
            return Failed, corrections;
          }
          output := recovered;
        case Lost => return Failed, corrections;
      }
    }
  }

  /** The corrected turn for any bound on the corrections. */
  function Corrected(request: Request, output: Option<TurnOutput>, exchanges: seq<Exchange>, corrections: nat,
                     max: nat): Result
    requires |exchanges| >= max >= corrections
    decreases max - corrections
  {
    if Valid(request, output) then Checked(output.value, corrections)
    else if corrections == max then DelegationValidation
    else if Breaks(exchanges[corrections]) then Failed
    else Corrected(request, Yield(exchanges[corrections]), exchanges, corrections + 1, max)
  }

  /** The whole Agent Engine turn: a first reply outside the schema is terminal. */
  function AeTurn(request: Request, first: Option<TurnOutput>, exchanges: seq<Exchange>, max: nat): Result
    requires |exchanges| >= max
  {
    if first.None? then SchemaInvalid else Corrected(request, first, exchanges, 0, max)
  }

  /** `turn_with_corrections`: the first reply and every corrective one go
      through the same loop. */
  method LocalLoop(request: Request, replies: seq<Option<TurnOutput>>) returns (r: Result, sent: nat)
    requires |replies| > CORRECTIVE_MAX
    ensures r == LocalTurn(request, replies, 0, CORRECTIVE_MAX)
    ensures sent <= 2
    ensures r.Checked? ==> r.corrections == sent && Valid(request, Some(r.output))
  {
    var corrections := 0;
    while true
      invariant corrections <= CORRECTIVE_MAX
      invariant LocalTurn(request, replies, 0, CORRECTIVE_MAX) ==
              LocalTurn(request, replies, corrections, CORRECTIVE_MAX)
      decreases CORRECTIVE_MAX - corrections
    {
      var reply := replies[corrections];
      if Valid(request, reply) {
        return Checked(reply.value, corrections), corrections;
      }
      if corrections >= CORRECTIVE_MAX {
        return DelegationValidation, corrections;
      }
      corrections := corrections + 1;
    }
  }

  function LocalTurn(request: Request, replies: seq<Option<TurnOutput>>, corrections: nat, max: nat): Result
    requires |replies| > max >= corrections
    decreases max - corrections
  {
    if Valid(request, replies[corrections]) then Checked(replies[corrections].value, corrections)
    else if corrections == max then DelegationValidation
    else LocalTurn(request, replies, corrections + 1, max)
  }

  // -- what the corrected turn is --------------------------------------------------------------

  /** The i-th output under consideration: the first reply, then the yields. */
  function Candidate(first: TurnOutput, exchanges: seq<Exchange>, i: nat): Option<TurnOutput>
    requires i <= |exchanges|
  {
    if i == 0 then Some(first) else Yield(exchanges[i - 1])
  }

  /** No candidate before the i-th fits the schema and the rules, and every
      exchange up to it went through. */
  ghost predicate Arrives(request: Request, first: TurnOutput, exchanges: seq<Exchange>, i: nat)
    requires i <= |exchanges|
  {
    && (forall j :: 0 <= j < i ==> !Valid(request, Candidate(first, exchanges, j)))
    && (forall j :: 0 <= j < i ==> !Breaks(exchanges[j]))
  }

  lemma {:induction false} CorrectedFrom(request: Request, first: TurnOutput, exchanges: seq<Exchange>, i: nat,
                                         max: nat)
    requires |exchanges| >= max >= i && Arrives(request, first, exchanges, i)
    ensures Corrected(request, Some(first), exchanges, 0, max) ==
            Corrected(request, Candidate(first, exchanges, i), exchanges, i, max)
  {
    if i > 0 {
      CorrectedFrom(request, first, exchanges, i - 1, max);
    }
  }

  /** Where the loop stops: at a valid candidate, at the bound, or at a break. */
  lemma {:induction false} StopsSomewhere(request: Request, first: TurnOutput, exchanges: seq<Exchange>, i: nat,
                                          max: nat) returns (stop: nat)
    requires |exchanges| >= max >= i && Arrives(request, first, exchanges, i)
    ensures i <= stop <= max && Arrives(request, first, exchanges, stop)
    ensures Valid(request, Candidate(first, exchanges, stop)) || stop == max || Breaks(exchanges[stop])
    decreases max - i
  {
    if Valid(request, Candidate(first, exchanges, i)) || i == max || Breaks(exchanges[i]) {
      stop := i;
    } else {
      stop := StopsSomewhere(request, first, exchanges, i + 1, max);
    }
  }

  /** An accepted output is the first valid candidate within the bound; the loop
      gives up exactly when every candidate fails, and fails exactly when an
      unreconciled exchange is met first. */
  lemma CorrectedMeaning(request: Request, first: TurnOutput, exchanges: seq<Exchange>, max: nat)
    requires |exchanges| >= max
    ensures var r := Corrected(request, Some(first), exchanges, 0, max);
      && (forall c: nat, o :: r == Checked(o, c) <==>
            && c <= max && Arrives(request, first, exchanges, c) && ValidateTurn(o, request).Valid?
            && (c == 0 ==> o == first)
            && (c > 0 ==> exchanges[c - 1] == Replied(Some(o)) || exchanges[c - 1] == Ambiguous(Some(o))))
      && (r.DelegationValidation? <==>
          Arrives(request, first, exchanges, max) && !Valid(request, Candidate(first, exchanges, max)))
      && (r.Failed? <==> (exists i :: 0 <= i < max && Arrives(request, first, exchanges, i)
                                  && !Valid(request, Candidate(first, exchanges, i))
                                  && (exchanges[i] == Lost || exchanges[i] == Ambiguous(None))))
      && !r.SchemaInvalid?
  {
    forall i | 0 <= i <= max && Arrives(request, first, exchanges, i)
      ensures Corrected(request, Some(first), exchanges, 0, max) ==
              Corrected(request, Candidate(first, exchanges, i), exchanges, i, max)
    {
      CorrectedFrom(request, first, exchanges, i, max);
    }
    var stop := StopsSomewhere(request, first, exchanges, 0, max);
    assert Corrected(request, Candidate(first, exchanges, stop), exchanges, stop, max) ==
           if Valid(request, Candidate(first, exchanges, stop)) then
               Checked(Candidate(first, exchanges, stop).value, stop)
           else if stop == max then DelegationValidation else Failed;
  }

  function Transported(replies: seq<Option<TurnOutput>>): (x: seq<Exchange>)
    ensures |x| == |replies| && forall i :: 0 <= i < |x| ==> x[i] == Replied(replies[i])
  {
    seq(|replies|, i requires 0 <= i < |replies| => Replied(replies[i]))
  }

  lemma {:induction false} LoopsStepTogether(request: Request, replies: seq<Option<TurnOutput>>, i: nat, max: nat)
    requires |replies| > max >= i
    ensures Corrected(request, replies[i], Transported(replies[1..]), i, max) == LocalTurn(request, replies, i, max)
    ensures !LocalTurn(request, replies, i, max).SchemaInvalid?
    decreases max - i
  {
    if i < max {
      LoopsStepTogether(request, replies, i + 1, max);
      assert Transported(replies[1..])[i] == Replied(replies[i + 1]);
    }
  }

  /** On failure-free transport the two loops agree, result and count, exactly
      when the first reply fits the schema; otherwise the Agent Engine turn fails
      at once where the local one still corrects. */
  lemma LoopsAgreeIff(request: Request, replies: seq<Option<TurnOutput>>, max: nat)
    requires |replies| > max
    ensures AeTurn(request, replies[0], Transported(replies[1..]), max) == LocalTurn(request, replies, 0, max) <==>
            replies[0].Some?
  {
    LoopsStepTogether(request, replies, 0, max);
  }
}
