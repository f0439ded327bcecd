/** Writes of external integrations, each under an idempotency key of its integration. */
module ExternalWrites {
  // The operation a write wraps, a draft, a customer or a bank notice, is any function of the rows that may fail.

  import opened Basics
  import opened Books
  import opened Pricing
  import opened Runs
  import opened Reading
  import opened DraftAnswers

  datatype Request = Request(integration: nat, key: string, action: string, payload: string)

  datatype Kept = Kept(action: string, payload: string, response: string)

  /** The company's rows and the requests that were answered. */
  datatype Book = Book(rows: State, kept: map<(nat, string), Kept>)

  /** An operation returns the new rows and its response, or raises. */
  datatype Done = Done(rows: State, response: string)

  datatype Answer = Answered(response: string, replay: bool) | Raised(error: Error)

  datatype Reply = Reply(book: Book, answer: Answer)

  function Name(r: Request): (nat, string) { (r.integration, r.key) }

  /** `active`: the integration's key may be used for this action now. */
  function Submitted(b: Book, active: bool, r: Request, operation: State -> Result<Done>): Reply {
    if !active then Reply(b, Raised(PermissionDenied))
    else if Strip(r.key) == "" || |r.key| > 128 then Reply(b, Raised(IdempotencyRequired))
    else if Name(r) in b.kept then
      var k := b.kept[Name(r)];
      Reply(b, if k.payload == r.payload && k.action == r.action then Answered(k.response, true)
          else Raised(IdempotencyConflict))
    else
      match operation(b.rows)
      case Err(e) => Reply(b, Raised(e))
      case Ok(d) => Reply(Book(d.rows, b.kept[Name(r) := Kept(r.action, r.payload, d.response)]),
                          Answered(d.response, false))
  }

  /** Between two external writes the company works on its own rows. */
  datatype Move = Outside(active: bool, request: Request, operation: State -> Result<Done>) | Inside(call: Call)

  function After(b: Book, m: Move): Book {
    match m
    case Outside(active, r, operation) => Submitted(b, active, r, operation).book
    case Inside(call) => b.(rows := Step(b.rows, call))
  }

  function History(b: Book, moves: seq<Move>): Book {
    if moves == [] then b else After(History(b, moves[..|moves| - 1]), moves[|moves| - 1])
  }

  /** Whether a move ran the operation of the request named `name` to its end. */
  predicate Executes(b: Book, m: Move, name: (nat, string)) {
    m.Outside? && Name(m.request) == name && Submitted(b, m.active, m.request, m.operation).answer.Answered?
    && !Submitted(b, m.active, m.request, m.operation).answer.replay
  }

  function Executions(b: Book, moves: seq<Move>, name: (nat, string)): nat {
    if moves == [] then 0
    else
      var n := |moves| - 1;
      Executions(b, moves[..n], name) + if Executes(History(b, moves[..n]), moves[n], name) then 1 else 0
  }

  lemma {:induction false} KeptForEver(b: Book, moves: seq<Move>, k: nat, name: (nat, string))
    requires k <= |moves| && name in History(b, moves[..k]).kept
    ensures name in History(b, moves).kept && History(b, moves).kept[name] == History(b, moves[..k]).kept[name]
  {
    hide Step;
    var n := |moves| - 1;
    if k == |moves| {
      assert moves[..k] == moves;
    } else {
      assert moves[..n][..k] == moves[..k];
      KeptForEver(b, moves[..n], k, name);
    }
  }

  /** However often a request is repeated, its operation runs to its end at most once, and exactly then it is kept. */
  lemma {:induction false} AtMostOnce(b: Book, moves: seq<Move>, name: (nat, string))
    requires name !in b.kept
    ensures Executions(b, moves, name) <= 1
    ensures Executions(b, moves, name) == 1 <==> name in History(b, moves).kept
  {
    hide Step;
    if moves != [] {
      AtMostOnce(b, moves[..|moves| - 1], name);
    }
  }

  /**
   After an answered request, the same request is answered alike at any later time and changes nothing;
   the same key with another action or content is refused and changes nothing.
   */
  lemma RepeatedWrite(b: Book, moves: seq<Move>, k: nat, again: Request, operation: State -> Result<Done>)
    requires k < |moves| && moves[k].Outside? && Name(moves[k].request) == Name(again)
    requires Submitted(History(b, moves[..k]), moves[k].active, moves[k].request, moves[k].operation).answer.Answered?
    ensures var first := Submitted(History(b, moves[..k]), moves[k].active, moves[k].request,
                                   moves[k].operation).answer;
            var late := Submitted(History(b, moves), true, again, operation);
            late.book == History(b, moves)
            && late.answer == if again == moves[k].request then Answered(first.response, true)
                 else Raised(IdempotencyConflict)
  {
    hide Step;
    assert moves[..k + 1][..k] == moves[..k];
    assert History(b, moves[..k + 1]) == After(History(b, moves[..k]), moves[k]);
    KeptForEver(b, moves, k + 1, Name(again));
  }

  /**
   A write under a new, usable key does what its operation does: its rows and response are kept, its error is passed on.
   Nothing else changes anything.
   */
  lemma FirstWrite(b: Book, active: bool, r: Request, operation: State -> Result<Done>)
    ensures var usable := active && !Blank(r.key) && |r.key| <= 128; var done := operation(b.rows);
            && (usable && Name(r) !in b.kept && done.Ok? ==>
                  Submitted(b, active, r, operation) ==
                  Reply(Book(done.value.rows, b.kept[Name(r) := Kept(r.action, r.payload, done.value.response)]),
                        Answered(done.value.response, false)))
            && (usable && Name(r) !in b.kept && done.Err? ==>
                  Submitted(b, active, r, operation) == Reply(b, Raised(done.error)))
            && (!usable ==>
                  Submitted(b, active, r, operation).book == b && Submitted(b, active, r, operation).answer.Raised?)
  {
    BlankExactly(r.key);
  }

  /** The write as it runs: the operation changes the rows, and then its response is kept. */
  class RequestLog {
    var rows: State
    var kept: map<(nat, string), Kept>

    constructor (start: Book)
      ensures Book(rows, kept) == start
    {
      rows, kept := start.rows, start.kept;
    }

    method Submit(active: bool, r: Request, operation: State -> Result<Done>) returns (answer: Answer)
      modifies this
      ensures Reply(Book(rows, kept), answer) == Submitted(old(Book(rows, kept)), active, r, operation)
    {
      if !active { return Raised(PermissionDenied); }
      if Strip(r.key) == "" || |r.key| > 128 { return Raised(IdempotencyRequired); }
      if Name(r) in kept {
        var previous := kept[Name(r)];
        if previous.payload != r.payload || previous.action != r.action { return Raised(IdempotencyConflict); }
        return Answered(previous.response, true);
      }
      var result := operation(rows);
      if result.Err? { return Raised(result.error); }
      rows := result.value.rows;
      kept := kept[Name(r) := Kept(r.action, r.payload, result.value.response)];
      answer := Answered(result.value.response, false);
    }
  }

  // ---- notices of bank movements ----

  /** A notice already stored is accepted again only with the same content, and one notice keeps one content. */
  lemma NoticesAreUnique(s: State, data: External)
    ensures var o := Receive(s, data);
            o.answer.Ok? ==> Known(o.state.externals, data.integration, data.externalId) == Some(data)
                             && Receive(o.state, data).state == o.state && Receive(o.state, data).answer.Ok?
    ensures var o := Receive(s, data);
            o.answer.Err? ==> o.state == s
  {
    var o := Receive(s, data);
    if o.state != s {
      assert o.state.externals[..|s.externals|] == s.externals;
    }
  }
}
