/**
 * The settings page: one card per AI provider the server knows. Clicking a
 * card tests the connection to that provider; the card shows the test's
 * progress and outcome. Every update finds its card by provider name.
 */
module Settings {
  import opened Wrappers

  datatype TestStatus = Untested | Testing | Connected | Error

  /** A provider as the server lists it; an absent `comingSoon` is false. */
  datatype Provider = Provider(name: string, displayName: string, comingSoon: bool)

  /** A provider's card. */
  datatype ProviderState = ProviderState(
    name: string, displayName: string, comingSoon: bool, status: TestStatus, message: string)

  /** The cards for the server's list: same order, each untested and without a message. */
  function Initialise(listed: seq<Provider>): (cards: seq<ProviderState>)
    ensures |cards| == |listed|
    ensures forall k :: 0 <= k < |cards| ==>
      && cards[k].name == listed[k].name
      && cards[k].displayName == listed[k].displayName
      && cards[k].comingSoon == listed[k].comingSoon
      && cards[k].status == Untested && cards[k].message == ""
  {
    seq(|listed|, k requires 0 <= k < |listed| =>
      ProviderState(listed[k].name, listed[k].displayName, listed[k].comingSoon, Untested, ""))
  }

  /** Every card named `name` gets `status` and `message`; every other card is kept. */
  function UpdateNamed(cards: seq<ProviderState>, name: string, status: TestStatus, message: string)
    : (updated: seq<ProviderState>)
    ensures |updated| == |cards|
    ensures forall k :: 0 <= k < |cards| && cards[k].name == name ==>
      updated[k] == cards[k].(status := status, message := message)
    ensures forall k :: 0 <= k < |cards| && cards[k].name != name ==> updated[k] == cards[k]
  {
    if |cards| == 0 then []
    else
      var rest := UpdateNamed(cards[1..], name, status, message);
      var head := if cards[0].name == name then cards[0].(status := status, message := message) else cards[0];
      [head] + rest
  }

  /** An update only touches status and message: the list of providers stays the same. */
  lemma UpdateNamedKeepsProviders(cards: seq<ProviderState>, name: string, status: TestStatus, message: string)
    ensures var updated := UpdateNamed(cards, name, status, message);
      forall k :: 0 <= k < |cards| ==>
        && updated[k].name == cards[k].name
        && updated[k].displayName == cards[k].displayName
        && updated[k].comingSoon == cards[k].comingSoon
  {
  }

  /** The later of two updates to the same provider wins. */
  lemma UpdateNamedOverrides(cards: seq<ProviderState>, name: string,
                             s1: TestStatus, m1: string, s2: TestStatus, m2: string)
    ensures UpdateNamed(UpdateNamed(cards, name, s1, m1), name, s2, m2) == UpdateNamed(cards, name, s2, m2)
  {
    var lhs := UpdateNamed(UpdateNamed(cards, name, s1, m1), name, s2, m2);
    var rhs := UpdateNamed(cards, name, s2, m2);
    forall k | 0 <= k < |cards| ensures lhs[k] == rhs[k] {
      assert UpdateNamed(cards, name, s1, m1)[k].name == cards[k].name;
    }
  }

  /** Updates to two different providers, as when two tests finish, land the same in either order. */
  lemma UpdateNamedCommutes(cards: seq<ProviderState>, n1: string, s1: TestStatus, m1: string,
                            n2: string, s2: TestStatus, m2: string)
    requires n1 != n2
    ensures UpdateNamed(UpdateNamed(cards, n1, s1, m1), n2, s2, m2)
         == UpdateNamed(UpdateNamed(cards, n2, s2, m2), n1, s1, m1)
  {
    var a := UpdateNamed(cards, n1, s1, m1);
    var b := UpdateNamed(cards, n2, s2, m2);
    var lhs := UpdateNamed(a, n2, s2, m2);
    var rhs := UpdateNamed(b, n1, s1, m1);
    forall k | 0 <= k < |cards| ensures lhs[k] == rhs[k] {
      assert a[k].name == cards[k].name && b[k].name == cards[k].name;
    }
  }

  /** The click handler's guard: a provider that is available and not already being tested. */
  function CanStartTest(card: ProviderState): (ok: bool)
    ensures ok <==> IndicatorFor(card) in {ClickToTest, Check, Cross}
  {
    !card.comingSoon && card.status != Testing
  }

  /** The card's `disabled` attribute. */
  function Disabled(card: ProviderState): (disabled: bool)
    ensures disabled <==> !CanStartTest(card)
  {
    card.comingSoon || card.status == Testing
  }

  datatype Border = SuccessBorder | ErrorBorder | AccentBorder | DefaultBorder

  /** The border for a test status: one colour each for connected, error and testing. */
  function BorderColor(status: TestStatus): (border: Border)
    ensures border == SuccessBorder <==> status == Connected
    ensures border == ErrorBorder <==> status == Error
    ensures border == AccentBorder <==> status == Testing
    ensures border == DefaultBorder <==> status == Untested
  {
    match status
    case Connected => SuccessBorder
    case Error => ErrorBorder
    case Testing => AccentBorder
    case Untested => DefaultBorder
  }

  /** A card's border: the plain one for a provider that is coming soon, whatever its status. */
  function CardBorder(card: ProviderState): (border: Border)
    ensures card.comingSoon ==> border == DefaultBorder
    ensures !card.comingSoon ==> border == BorderColor(card.status)
  {
    if card.comingSoon then DefaultBorder else BorderColor(card.status)
  }

  /** The marker at the right of a card. */
  datatype Indicator = ComingSoonTag | Spinner | Check | Cross | ClickToTest

  /** The five conditional markers of a card, of which exactly one is shown. */
  function IndicatorFor(card: ProviderState): (indicator: Indicator)
    ensures indicator == ComingSoonTag <==> card.comingSoon
    ensures indicator == Spinner <==> !card.comingSoon && card.status == Testing
    ensures indicator == Check <==> !card.comingSoon && card.status == Connected
    ensures indicator == Cross <==> !card.comingSoon && card.status == Error
    ensures indicator == ClickToTest <==> !card.comingSoon && card.status == Untested
  {
    if card.comingSoon then ComingSoonTag
    else match card.status
      case Testing => Spinner
      case Connected => Check
      case Error => Cross
      case Untested => ClickToTest
  }

  /** The line under a card: its message, green after a successful test, red otherwise. */
  datatype MessageLine = NoMessage | Green(text: string) | Red(text: string)

  function MessageFor(card: ProviderState): (line: MessageLine)
    ensures line == NoMessage <==> card.message == ""
    ensures line.Green? <==> card.message != "" && card.status == Connected
    ensures line != NoMessage ==> line.text == card.message
  {
    if card.message == "" then NoMessage
    else if card.status == Connected then Green(card.message)
    else Red(card.message)
  }

  /** The status a finished test leaves. */
  function Outcome(ok: bool): (status: TestStatus)
    ensures status != Testing && status != Untested
    ensures status == Connected <==> ok
  {
    if ok then Connected else Error
  }

  class SettingsPage {
    var providers: seq<ProviderState>

    /** No cards until the server's list arrives. */
    constructor ()
      ensures providers == []
    {
      providers := [];
    }

    /** The server listed its providers. */
    method Loaded(listed: seq<Provider>)
      modifies this
      ensures providers == Initialise(listed)
    {
      providers := Initialise(listed);
    }

    /**
     * A click on card `i`: when the guard admits it, every card of that
     * provider shows the test running and the test request is sent.
     */
    method Click(i: nat) returns (test: Option<string>)
      requires i < |providers|
      modifies this
      ensures CanStartTest(old(providers[i])) ==>
        && test == Some(old(providers[i].name))
        && providers == UpdateNamed(old(providers), old(providers[i].name), Testing, "")
        && Disabled(providers[i])
      ensures !CanStartTest(old(providers[i])) ==> test == None && providers == old(providers)
    {
      var card := providers[i];
      if CanStartTest(card) {
        providers := UpdateNamed(providers, card.name, Testing, "");
        test := Some(card.name);
      } else {
        test := None;
      }
    }

    /** The test answered: connected or not, with the server's message. */
    method TestReturned(name: string, ok: bool, message: string)
      modifies this
      ensures providers == UpdateNamed(old(providers), name, Outcome(ok), message)
    {
      providers := UpdateNamed(providers, name, Outcome(ok), message);
    }

    /** The test request itself failed: an error, with the failure's message. */
    method TestThrew(name: string, message: string)
      modifies this
      ensures providers == UpdateNamed(old(providers), name, Error, message)
    {
      providers := UpdateNamed(providers, name, Error, message);
    }
  }

  /**
   * A started test ends: after the answer (or the failure) arrives, no card
   * of that provider is still testing, and each can be tested again unless
   * it is coming soon.
   */
  lemma {:induction false} FinishedTestReenables(cards: seq<ProviderState>, name: string,
                                                status: TestStatus, message: string)
    requires status != Testing
    ensures var updated := UpdateNamed(cards, name, status, message);
      forall k :: 0 <= k < |updated| && updated[k].name == name ==>
        updated[k].status != Testing && (CanStartTest(updated[k]) <==> !updated[k].comingSoon)
  {
    var updated := UpdateNamed(cards, name, status, message);
    forall k | 0 <= k < |updated| && updated[k].name == name
      ensures updated[k].status != Testing
    {
      assert cards[k].name == name;
    }
  }
}
