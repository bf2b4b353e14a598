/** One clerk call in progress, and the moves the network can make on it. */
module Calls {
  import opened Options
  import opened Kv

  // A call is either about to have an attempt executed (reply is None) or has
  // had one executed whose reply is on its way (reply is Some).
  datatype Call<V> =
    | GetCall(key: string, got: Option<Got<V>>)
    | PutCall(args: PutArgs<V>, first: bool, reply: Option<Err>)

  datatype Output<V> = GetOut(got: Got<V>) | PutOut(err: Err)

  datatype Progress<V> = Running(call: Call<V>) | Returned(out: Output<V>)

  // Drop: the attempt is lost before the server sees it. Execute: the server
  // handles it. Lose and Deliver: what happens to the reply.
  datatype Move = Drop | Execute | Lose | Deliver

  function StartGet<V>(key: string): Call<V> { GetCall(key, None) }

  function StartPut<V>(key: string, value: V, version: nat): Call<V> {
    PutCall(PutArgs(key, value, version), true, None)
  }

  predicate Replied<V>(call: Call<V>) {
    match call
    case GetCall(_, got) => got.Some?
    case PutCall(_, _, reply) => reply.Some?
  }

  predicate CanMove<V>(call: Call<V>, move: Move) {
    Replied(call) == (move == Lose || move == Deliver)
  }

  // ErrVersion on a resend is reported as ErrMaybe.
  function FoldErr(err: Err, first: bool): Err {
    if err == ErrVersion && !first then ErrMaybe else err
  }

  function Advance<V>(s: Store<V>, call: Call<V>, move: Move): (r: (Store<V>, Progress<V>))
    requires CanMove(call, move)
    ensures Versioned(s) ==> Versioned(r.0)
    ensures move != Execute || call.GetCall? ==> r.0 == s
    ensures r.1.Returned? <==> move == Deliver
    ensures call.PutCall? && move != Deliver ==>
              r.1.call.PutCall? && r.1.call.args == call.args && (r.1.call.first <==> call.first && move == Execute)
    ensures call.PutCall? && move == Deliver ==>
              && r.1.out.PutOut? && (r.1.out.err == OK <==> call.reply == Some(OK))
              && (call.reply == Some(ErrVersion) ==> r.1.out.err == if call.first then ErrVersion else ErrMaybe)
  {
    match call
    case GetCall(key, got) => (
      match move
      case Drop => (s, Running(call))
      case Execute => (s, Running(GetCall(key, Some(HandleGet(s, key)))))
      case Lose => (s, Running(GetCall(key, None)))
      case Deliver => (s, Returned(GetOut(got.value)))
    )
    case PutCall(args, first, reply) => (
      match move
      case Drop => (s, Running(PutCall(args, false, None)))
      case Execute =>
        var (s', err) := HandlePut(s, args);
        (s', Running(PutCall(args, first, Some(err))))
      case Lose => (s, Running(PutCall(args, false, None)))
      case Deliver => (s, Returned(PutOut(FoldErr(reply.value, first))))
    )
  }
}
