/**
 * The messages `handleConnectWallet` shows when `connectWallet()` throws.
 * The two user pages (lottery-dapp/src/App.js, lottery-frontend/src/App.js)
 * share one chain, which also recognises failed network switches; the two
 * admin panels (lottery-dapp/src/AdminPanel.js, lottery-frontends/src/AdminPanel.js)
 * share the same chain without that branch.
 */
module WalletConnect {
  import opened Wrappers
  import opened JsErrors

  predicate Rejected(e: JsError)
  {
    e.code == Some(UserRejectedCode) || Mentions(e, "user rejected") || Mentions(e, "user denied")
  }

  /** The user pages' chain; `walletInjected` is `window.ethereum` being set. */
  function AppConnectErrorMessage(e: JsError, walletInjected: bool): string
  {
    if Rejected(e) then "Wallet connection rejected by user"
    else if Mentions(e, "Already processing") then "Already processing a wallet request"
    else if !walletInjected then "MetaMask is not installed. Please install MetaMask"
    else if Mentions(e, "Somnia") then e.message.value
    else if Mentions(e, "network") then "Network change failed. Please try again"
    else "Wallet connection failed. Please try again"
  }

  /** The admin panels' chain. */
  function AdminConnectErrorMessage(e: JsError, walletInjected: bool): string
  {
    if Rejected(e) then "Wallet connection rejected by user"
    else if Mentions(e, "Already processing") then "Already processing a wallet request"
    else if !walletInjected then "MetaMask is not installed. Please install MetaMask"
    else if Mentions(e, "Somnia") then e.message.value
    else "Wallet connection failed. Please try again"
  }

  const RejectionTests := [CodeIs(UserRejectedCode), MessageHas("user rejected"), MessageHas("user denied")]

  const AppConnectRules := [
    Rule(RejectionTests, Say("Wallet connection rejected by user")),
    Rule([MessageHas("Already processing")], Say("Already processing a wallet request")),
    Rule([NoWallet], Say("MetaMask is not installed. Please install MetaMask")),
    Rule([MessageHas("Somnia")], EchoMessage),
    Rule([MessageHas("network")], Say("Network change failed. Please try again")),
    Rule([Otherwise], Say("Wallet connection failed. Please try again"))
  ]

  const AdminConnectRules := AppConnectRules[..4] + AppConnectRules[5..]

  lemma RejectionFires(e: JsError, walletInjected: bool)
    ensures EvaluateAny(RejectionTests, e, walletInjected) == Some(Rejected(e))
  {
    EvaluateThree(CodeIs(UserRejectedCode), MessageHas("user rejected"), MessageHas("user denied"), e, walletInjected);
  }

  /** What each branch of the user pages' chain evaluates to on `e`. */
  lemma AppConnectTests(e: JsError, walletInjected: bool)
    ensures Fires(AppConnectRules[0], e, walletInjected) == Some(Rejected(e))
    ensures Fires(AppConnectRules[1], e, walletInjected) == Some(Mentions(e, "Already processing"))
    ensures Fires(AppConnectRules[2], e, walletInjected) == Some(!walletInjected)
    ensures Fires(AppConnectRules[3], e, walletInjected) == Some(Mentions(e, "Somnia"))
    ensures Fires(AppConnectRules[4], e, walletInjected) == Some(Mentions(e, "network"))
    ensures Fires(AppConnectRules[5], e, walletInjected) == Some(true)
  {
    RejectionFires(e, walletInjected);
    EvaluateOne(MessageHas("Already processing"), e, walletInjected);
    EvaluateOne(NoWallet, e, walletInjected);
    EvaluateOne(MessageHas("Somnia"), e, walletInjected);
    EvaluateOne(MessageHas("network"), e, walletInjected);
    EvaluateOne(Otherwise, e, walletInjected);
  }

  /** The user pages' chain is the priority table: the first branch that holds wins. */
  lemma AppConnectFollowsPriority(e: JsError, walletInjected: bool)
    ensures FirstMatch(AppConnectRules, e, walletInjected)
      == Chosen(RuleFor(e, walletInjected, true), AppConnectErrorMessage(e, walletInjected))
  {
    var rules := AppConnectRules;
    AppConnectTests(e, walletInjected);
    var k := RuleFor(e, walletInjected, true);
    forall j | 0 <= j < k ensures Fires(rules[j], e, walletInjected) == Some(false) {
      assert j == 0 || j == 1 || j == 2 || j == 3 || j == 4;
    }
    FirstMatchAt(rules, e, walletInjected, k);
  }

  /** The admin panels' chain is its priority table. */
  lemma AdminConnectFollowsPriority(e: JsError, walletInjected: bool)
    ensures FirstMatch(AdminConnectRules, e, walletInjected)
      == Chosen(RuleFor(e, walletInjected, false), AdminConnectErrorMessage(e, walletInjected))
  {
    var rules := AdminConnectRules;
    assert rules == [AppConnectRules[0], AppConnectRules[1], AppConnectRules[2], AppConnectRules[3], AppConnectRules[5]];
    AppConnectTests(e, walletInjected);
    var k := RuleFor(e, walletInjected, false);
    forall j | 0 <= j < k ensures Fires(rules[j], e, walletInjected) == Some(false) {
      assert j == 0 || j == 1 || j == 2 || j == 3;
    }
    FirstMatchAt(rules, e, walletInjected, k);
  }

  /** Index of the branch taken (the `network` branch exists only when `withNetwork`). */
  function RuleFor(e: JsError, walletInjected: bool, withNetwork: bool): nat
  {
    if Rejected(e) then 0
    else if Mentions(e, "Already processing") then 1
    else if !walletInjected then 2
    else if Mentions(e, "Somnia") then 3
    else if withNetwork && Mentions(e, "network") then 4
    else if withNetwork then 5 else 4
  }
}
