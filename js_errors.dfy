/**
 * Errors thrown by the wallet, by ethers and by the contract, and the way the
 * front ends turn them into banner messages: a chain of `if … else if …`
 * tests on `error.code` and on substrings of `error.message`.
 *
 * Every classifier in the front ends is written as such a chain.  This module
 * gives the independent reading of such a chain as data: an ordered table of
 * rules, the first rule whose test holds decides the message
 * (FirstMatch).  Each front-end module proves that its chain is that table.
 */
module JsErrors {
  import opened Wrappers
  import opened JsText

  /**
   * The fields of a caught error the handlers read.  `code` is the numeric
   * EIP-1193 code when there is one (`None` also stands for a non-numeric
   * code); `message` and `reason` are `None` when the property is undefined.
   */
  datatype JsError = JsError(code: Option<int>, message: Option<string>, reason: Option<string>)

  /** `new Error(text)`, as thrown by the front ends' own checks. */
  function ErrorWithMessage(text: string): JsError
  {
    JsError(None, Some(text), None)
  }

  /** JavaScript truthiness of an optional string: defined and not empty. */
  predicate Truthy(s: Option<string>) { s.Some? && s.value != "" }

  /** `error.message && error.message.includes(needle)` */
  predicate Mentions(e: JsError, needle: string)
  {
    Truthy(e.message) && Contains(e.message.value, needle)
  }

  /** EIP-1193 "user rejected the request". */
  const UserRejectedCode := 4001

  /** One test of an `else if` condition. */
  datatype Test =
    | CodeIs(code: int)               // error.code === code
    | MessageHas(needle: string)      // error.message && error.message.includes(needle)
    | BareMessageHas(needle: string)  // error.message.includes(needle): a TypeError when message is undefined
    | NoWallet                        // !window.ethereum
    | Otherwise                       // the final `else`

  /** The value a test yields, `None` when evaluating it throws. */
  function Evaluate(t: Test, e: JsError, walletInjected: bool): Option<bool>
  {
    match t
    case CodeIs(n) => Some(e.code == Some(n))
    case MessageHas(needle) => Some(Mentions(e, needle))
    case BareMessageHas(needle) =>
      if e.message.None? then None else Some(Contains(e.message.value, needle))
    case NoWallet => Some(!walletInjected)
    case Otherwise => Some(true)
  }

  /** `t0 || t1 || …` with JavaScript's left-to-right short circuit. */
  function EvaluateAny(tests: seq<Test>, e: JsError, walletInjected: bool): Option<bool>
  {
    if |tests| == 0 then Some(false)
    else match Evaluate(tests[0], e, walletInjected)
      case None => None
      case Some(true) => Some(true)
      case Some(false) => EvaluateAny(tests[1..], e, walletInjected)
  }

  lemma EvaluateOne(t: Test, e: JsError, walletInjected: bool)
    ensures EvaluateAny([t], e, walletInjected) == Evaluate(t, e, walletInjected)
  {
    assert [t][1..] == [];
  }

  /** A disjunction of three tests that cannot throw is their plain disjunction. */
  lemma EvaluateThree(a: Test, b: Test, c: Test, e: JsError, walletInjected: bool)
    requires !a.BareMessageHas? && !b.BareMessageHas? && !c.BareMessageHas?
    ensures EvaluateAny([a, b, c], e, walletInjected)
      == Some(Evaluate(a, e, walletInjected) == Some(true) || Evaluate(b, e, walletInjected) == Some(true)
              || Evaluate(c, e, walletInjected) == Some(true))
  {
    assert [a, b, c][1..] == [b, c];
    assert [b, c][1..] == [c];
    EvaluateOne(c, e, walletInjected);
  }

  /** A disjunction of two tests. */
  lemma EvaluateTwo(a: Test, b: Test, e: JsError, walletInjected: bool)
    ensures EvaluateAny([a, b], e, walletInjected)
      == match Evaluate(a, e, walletInjected)
         case None => None
         case Some(true) => Some(true)
         case Some(false) => Evaluate(b, e, walletInjected)
  {
    assert [a, b][1..] == [b];
    EvaluateOne(b, e, walletInjected);
  }

  /** What a branch shows. */
  datatype Reply =
    | Say(text: string)        // a fixed text
    | EchoMessage              // error.message itself
    | Explain(prefix: string)  // prefix + (error.reason || error.message || 'Unknown error')

  function Detail(e: JsError): string
  {
    if Truthy(e.reason) then e.reason.value
    else if Truthy(e.message) then e.message.value
    else "Unknown error"
  }

  function Render(r: Reply, e: JsError): string
  {
    match r
    case Say(text) => text
    case EchoMessage => if e.message.Some? then e.message.value else ""
    case Explain(prefix) => prefix + Detail(e)
  }

  /** One branch of the chain: the disjunction it tests and what it shows. */
  datatype Rule = Rule(anyOf: seq<Test>, reply: Reply)

  function Fires(r: Rule, e: JsError, walletInjected: bool): Option<bool>
  {
    EvaluateAny(r.anyOf, e, walletInjected)
  }

  /** How a table of rules decides: a test threw, or no rule held, or rule `index` did. */
  datatype Verdict = Threw | NoRule | Chosen(index: nat, text: string)

  function Shift(v: Verdict): Verdict
  {
    match v
    case Chosen(i, t) => Chosen(i + 1, t)
    case _ => v
  }

  /** The rules are tried in order; the first that holds gives the message. */
  function FirstMatch(rules: seq<Rule>, e: JsError, walletInjected: bool): Verdict
  {
    if |rules| == 0 then NoRule
    else match Fires(rules[0], e, walletInjected)
      case None => Threw
      case Some(true) => Chosen(0, Render(rules[0].reply, e))
      case Some(false) => Shift(FirstMatch(rules[1..], e, walletInjected))
  }

  /** The banner text a verdict leads to; `None` when the classifier itself threw or nothing held. */
  function Shown(v: Verdict): Option<string>
  {
    if v.Chosen? then Some(v.text) else None
  }

  /** The rules before `k` all evaluate, to false. */
  ghost predicate NoneBefore(rules: seq<Rule>, k: int, e: JsError, walletInjected: bool)
    requires k <= |rules|
  {
    forall j :: 0 <= j < k ==> Fires(rules[j], e, walletInjected) == Some(false)
  }

  /**
   * Priority: when every earlier rule is false, rule `k` decides the outcome;
   * if it holds its reply is shown, if its test throws the classifier throws.
   */
  lemma {:induction false} FirstMatchAt(rules: seq<Rule>, e: JsError, walletInjected: bool, k: nat)
    requires k < |rules| && NoneBefore(rules, k, e, walletInjected)
    ensures Fires(rules[k], e, walletInjected) == Some(true) ==>
      FirstMatch(rules, e, walletInjected) == Chosen(k, Render(rules[k].reply, e))
    ensures Fires(rules[k], e, walletInjected) == None ==>
      FirstMatch(rules, e, walletInjected) == Threw
    decreases k
  {
    if k > 0 {
      assert Fires(rules[0], e, walletInjected) == Some(false);
      assert NoneBefore(rules[1..], k - 1, e, walletInjected) by {
        forall j | 0 <= j < k - 1 ensures Fires(rules[1..][j], e, walletInjected) == Some(false) {
          assert rules[1..][j] == rules[j + 1];
        }
      }
      FirstMatchAt(rules[1..], e, walletInjected, k - 1);
    }
  }

  /** Conversely, a chosen rule held and every rule before it was false. */
  lemma {:induction false} FirstMatchChosen(rules: seq<Rule>, e: JsError, walletInjected: bool)
    requires FirstMatch(rules, e, walletInjected).Chosen?
    ensures var k := FirstMatch(rules, e, walletInjected).index;
      k < |rules| && NoneBefore(rules, k, e, walletInjected)
      && Fires(rules[k], e, walletInjected) == Some(true)
      && FirstMatch(rules, e, walletInjected).text == Render(rules[k].reply, e)
  {
    if Fires(rules[0], e, walletInjected) == Some(false) {
      FirstMatchChosen(rules[1..], e, walletInjected);
      var k := FirstMatch(rules[1..], e, walletInjected).index;
      forall j | 0 <= j < k + 1 ensures Fires(rules[j], e, walletInjected) == Some(false) {
        if j > 0 {
          assert rules[j] == rules[1..][j - 1];
        }
      }
    }
  }

  /** A table that ends in a bare `else` never leaves an error unclassified. */
  lemma {:induction false} FirstMatchTotal(rules: seq<Rule>, e: JsError, walletInjected: bool)
    requires |rules| > 0 && rules[|rules| - 1].anyOf == [Otherwise]
    ensures !FirstMatch(rules, e, walletInjected).NoRule?
  {
    if |rules| > 1 && Fires(rules[0], e, walletInjected) == Some(false) {
      assert rules[1..][|rules[1..]| - 1] == rules[|rules| - 1];
      FirstMatchTotal(rules[1..], e, walletInjected);
    }
  }

  // ---------------------------------------------------------------------------
  // Outcome of an owner or user action guarded by checks and ending in a transaction

  /**
   * `Refused`: a guard set the error banner and returned before any call.
   * `Failed`: a call threw; the catch shows the classified message, or
   * `None` when the classifier itself threw and both banners stay cleared.
   * `Done`: the transaction was confirmed and the success banner is shown.
   */
  datatype HandlerResult = Refused(error: string) | Failed(shown: Option<string>) | Done(success: string)

  /** What `await (await contract.f(…)).wait()` does: the transaction is confirmed, or the error it throws. */
  datatype TxOutcome = Confirmed | Reverted(error: JsError)
}
