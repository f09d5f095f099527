/**
 Where a notice may go: linked messengers in the configured order, and SMS after them.
 */
module RoutePlan {
  import opened Options
  import opened OutboxRows
  import SmsText

  datatype Channel = TelegramChannel | WhatsAppChannel | SmsChannel | OtherChannel(name: string)

  datatype Recipient = Recipient(
    chat: string, chatPhone: string, whatsAppOptedIn: bool, whatsAppPhone: string,
    telegramOptedOut: bool, updatesRequested: bool)

  /** `template` is the approved template of the purpose without surrounding space, "" when there is none. */
  datatype Policy = Policy(order: seq<Channel>, enabled: set<Channel>, template: string, studioAccount: bool)

  datatype Target = Target(route: Route, address: string, template: string)

  datatype Planned = NoPlan | Targets(targets: seq<Target>)

  function Order(policy: Policy): seq<Channel> {
    if policy.order == [] then [TelegramChannel, WhatsAppChannel] else policy.order
  }

  predicate Messenger(c: Channel) { c == TelegramChannel || c == WhatsAppChannel }

  ghost predicate OrderOk(order: seq<Channel>) {
    && (forall i :: 0 <= i < |order| ==> Messenger(order[i]))
    && (forall i, j :: 0 <= i < j < |order| ==> order[i] != order[j])
  }

  /** The target a messenger offers for this phone, if it may be used at all. */
  function Offered(policy: Policy, r: Recipient, phone: string, c: Channel): Option<Target> {
    if c !in policy.enabled then None
    else if c == TelegramChannel then
      if r.telegramOptedOut then None
      else if SmsText.Trim(r.chat) != "" && r.chatPhone == phone then Some(Target(Telegram, r.chat, ""))
      else if policy.studioAccount && r.updatesRequested then Some(Target(TelegramAccount, phone, ""))
      else None
    else if c == WhatsAppChannel && r.whatsAppOptedIn && r.whatsAppPhone == phone && policy.template != "" then
      Some(Target(WhatsApp, phone, policy.template))
    else None
  }

  function Offers(policy: Policy, r: Recipient, phone: string, order: seq<Channel>): seq<Target> {
    if order == [] then []
    else
      var last := Offered(policy, r, phone, order[|order| - 1]);
      Offers(policy, r, phone, order[..|order| - 1]) + if last.Some? then [last.value] else []
  }

  ghost function Expected(policy: Policy, r: Recipient, normal: Option<string>, verification: bool): Planned {
    if normal == None || !OrderOk(Order(policy)) then NoPlan
    else
      Targets(
        (if verification then [] else Offers(policy, r, normal.value, Order(policy)))
        + if SmsChannel in policy.enabled then [Target(Sms, normal.value, "")] else [])
  }

  method CheckOrder(order: seq<Channel>) returns (ok: bool)
    ensures ok <==> OrderOk(order)
  {
    var seen: set<Channel> := {};
    for i := 0 to |order|
      invariant OrderOk(order[..i])
      invariant forall c :: c in seen <==> c in order[..i]
    {
      if !Messenger(order[i]) || order[i] in seen {
        if order[i] in seen {
          var j :| 0 <= j < i && order[..i][j] == order[i];
          assert order[j] == order[i];
        }
        return false;
      }
      seen := seen + {order[i]};
      assert order[..i + 1] == order[..i] + [order[i]];
    }
    assert order[..|order|] == order;
    return true;
  }

  /** `normal` is the recipient's phone after normalisation, `None` when it has none. */
  method Plan(policy: Policy, r: Recipient, normal: Option<string>, verification: bool) returns (planned: Planned)
    ensures planned == Expected(policy, r, normal, verification)
  {
    if normal == None {
      return NoPlan;
    }
    var order := Order(policy);
    var ok := CheckOrder(order);
    if !ok {
      return NoPlan;
    }
    var targets: seq<Target> := [];
    if !verification {
      for i := 0 to |order|
        invariant targets == Offers(policy, r, normal.value, order[..i])
      {
        assert order[..i + 1][..i] == order[..i];
        var offer := Offered(policy, r, normal.value, order[i]);
        if offer.Some? {
          targets := targets + [offer.value];
        }
      }
      assert order[..|order|] == order;
    }
    if SmsChannel in policy.enabled {
      targets := targets + [Target(Sms, normal.value, "")];
    }
    return Targets(targets);
  }

  function ChannelOf(route: Route): Channel {
    match route
    case Telegram => TelegramChannel
    case TelegramAccount => TelegramChannel
    case WhatsApp => WhatsAppChannel
    case Sms => SmsChannel
  }

  /** The part of the order that can be used, in the same order. */
  function Usable(policy: Policy, r: Recipient, phone: string, order: seq<Channel>): seq<Channel> {
    if order == [] then []
    else
      var c := order[|order| - 1];
      Usable(policy, r, phone, order[..|order| - 1]) + if Offered(policy, r, phone, c).Some? then [c] else []
  }

  predicate Addressed(t: Target, r: Recipient, phone: string) {
    t.address == phone || (t.route == Telegram && t.address == r.chat && r.chatPhone == phone)
  }

  lemma OfferFits(policy: Policy, r: Recipient, phone: string, c: Channel)
    requires Offered(policy, r, phone, c).Some?
    ensures
      var t := Offered(policy, r, phone, c).value;
      ChannelOf(t.route) == c && Messenger(c) && Addressed(t, r, phone)
  {
  }

  lemma {:induction false} OffersFollowOrder(policy: Policy, r: Recipient, phone: string, order: seq<Channel>)
    ensures
      var offers, usable := Offers(policy, r, phone, order), Usable(policy, r, phone, order);
      && |offers| == |usable|
      && forall i :: 0 <= i < |offers| ==> ChannelOf(offers[i].route) == usable[i] && Addressed(offers[i], r, phone)
  {
    if order != [] {
      OffersFollowOrder(policy, r, phone, order[..|order| - 1]);
      if Offered(policy, r, phone, order[|order| - 1]).Some? {
        OfferFits(policy, r, phone, order[|order| - 1]);
      }
    }
  }

  lemma {:induction false} UsableIsOrdered(policy: Policy, r: Recipient, phone: string, order: seq<Channel>)
    requires OrderOk(order)
    ensures OrderOk(Usable(policy, r, phone, order))
    ensures forall c :: c in Usable(policy, r, phone, order) <==> c in order && Offered(policy, r, phone, c).Some?
  {
    if order != [] {
      UsableIsOrdered(policy, r, phone, order[..|order| - 1]);
      assert order == order[..|order| - 1] + [order[|order| - 1]];
    }
  }

  ghost predicate OnePerChannel(targets: seq<Target>) {
    forall i, j :: 0 <= i < j < |targets| ==> ChannelOf(targets[i].route) != ChannelOf(targets[j].route)
  }

  ghost predicate SmsLast(targets: seq<Target>) {
    forall i :: 0 <= i < |targets| && targets[i].route == Sms ==> i == |targets| - 1
  }

  lemma OffersAreSound(policy: Policy, r: Recipient, phone: string, order: seq<Channel>)
    requires OrderOk(order)
    ensures
      var offers := Offers(policy, r, phone, order);
      && OnePerChannel(offers)
      && forall i :: 0 <= i < |offers| ==> offers[i].route != Sms && Addressed(offers[i], r, phone)
  {
    OffersFollowOrder(policy, r, phone, order);
    UsableIsOrdered(policy, r, phone, order);
    assert forall i :: 0 <= i < |Usable(policy, r, phone, order)| ==> Messenger(Usable(policy, r, phone, order)[i]);
  }

  ghost predicate Sound(targets: seq<Target>, policy: Policy, r: Recipient, phone: string) {
    && OnePerChannel(targets) && SmsLast(targets)
    && (SmsChannel in policy.enabled <==> targets != [] && targets[|targets| - 1].route == Sms)
    && forall i :: 0 <= i < |targets| ==> Addressed(targets[i], r, phone)
  }

  lemma SmsCompletes(offers: seq<Target>, policy: Policy, r: Recipient, phone: string)
    requires OnePerChannel(offers)
    requires forall i :: 0 <= i < |offers| ==> offers[i].route != Sms && Addressed(offers[i], r, phone)
    ensures Sound(offers + if SmsChannel in policy.enabled then [Target(Sms, phone, "")] else [], policy, r, phone)
  {
  }

  /**
   One target per channel, messengers as in the order, SMS at the end exactly when it is enabled,
   every address the phone's own.
   */
  lemma PlanIsSound(policy: Policy, r: Recipient, phone: string, verification: bool)
    requires OrderOk(Order(policy))
    ensures Sound(Expected(policy, r, Some(phone), verification).targets, policy, r, phone)
  {
    OffersAreSound(policy, r, phone, Order(policy));
    SmsCompletes(if verification then [] else Offers(policy, r, phone, Order(policy)), policy, r, phone);
  }

  // ---------------------------------------------------------------- who is messaged, and how

  /** The messenger stands in the order, which is Telegram and WhatsApp unless one is configured. */
  predicate Ordered(policy: Policy, c: Channel) {
    if policy.order == [] then c == TelegramChannel || c == WhatsAppChannel else c in policy.order
  }

  predicate MessengerUsable(policy: Policy, verification: bool, c: Channel) {
    !verification && c in policy.enabled && Ordered(policy, c)
  }

  /** A chat that is not blank is linked to this very phone. */
  predicate Linked(r: Recipient, phone: string) {
    r.chatPhone == phone && exists i :: 0 <= i < |r.chat| && !SmsText.Space(r.chat[i])
  }

  lemma {:induction false} TrimmedAway(s: string)
    ensures SmsText.TrimLeft(s) == "" <==> forall i :: 0 <= i < |s| ==> SmsText.Space(s[i])
    ensures SmsText.TrimRight(s) == "" <==> forall i :: 0 <= i < |s| ==> SmsText.Space(s[i])
  {
    if s != "" {
      TrimmedAway(s[1..]);
      TrimmedAway(s[..|s| - 1]);
      assert s == [s[0]] + s[1..] && s == s[..|s| - 1] + [s[|s| - 1]];
    }
  }

  lemma {:induction false} TrimLeftStops(s: string)
    ensures SmsText.TrimLeft(s) == "" || !SmsText.Space(SmsText.TrimLeft(s)[0])
  {
    if s != "" {
      TrimLeftStops(s[1..]);
    }
  }

  lemma BlankChat(s: string)
    ensures SmsText.Trim(s) != "" <==> exists i :: 0 <= i < |s| && !SmsText.Space(s[i])
  {
    TrimmedAway(s);
    TrimLeftStops(s);
    TrimmedAway(SmsText.TrimLeft(s));
  }

  lemma {:induction false} OffersExactly(policy: Policy, r: Recipient, phone: string, order: seq<Channel>, t: Target)
    ensures
      t in Offers(policy, r, phone, order) <==> exists c :: c in order && Offered(policy, r, phone, c) == Some(t)
  {
    if order != [] {
      OffersExactly(policy, r, phone, order[..|order| - 1], t);
      assert order == order[..|order| - 1] + [order[|order| - 1]];
    }
  }

  /** Which targets the plan holds, each with its address and its template. */
  ghost predicate Due(policy: Policy, r: Recipient, phone: string, verification: bool, t: Target) {
    match t.route
    case Telegram =>
      && MessengerUsable(policy, verification, TelegramChannel) && !r.telegramOptedOut && Linked(r, phone)
      && t.address == r.chat && t.template == ""
    case TelegramAccount =>
      && MessengerUsable(policy, verification, TelegramChannel) && !r.telegramOptedOut && !Linked(r, phone)
      && policy.studioAccount && r.updatesRequested && t.address == phone && t.template == ""
    case WhatsApp =>
      && MessengerUsable(policy, verification, WhatsAppChannel) && r.whatsAppOptedIn && r.whatsAppPhone == phone
      && policy.template != "" && t.address == phone && t.template == policy.template
    case Sms => SmsChannel in policy.enabled && t.address == phone && t.template == ""
  }

  /** What a messenger offers, in terms of consent, links and policy. */
  lemma OfferedExactly(policy: Policy, r: Recipient, phone: string, c: Channel, t: Target)
    requires Ordered(policy, c)
    ensures Offered(policy, r, phone, c) == Some(t) <==>
      Messenger(c) && c == ChannelOf(t.route) && Due(policy, r, phone, false, t)
  {
    BlankChat(r.chat);
  }

  /**
   The plan holds a target exactly if policy, consent and linked addresses call for it; a bad order or phone
   has no plan.
   */
  lemma PlanIsExact(policy: Policy, r: Recipient, normal: Option<string>, verification: bool, t: Target)
    ensures
      var plan := Expected(policy, r, normal, verification);
      && (plan.Targets? <==>
            && normal.Some?
            && (forall i :: 0 <= i < |policy.order| ==> policy.order[i] in {TelegramChannel, WhatsAppChannel})
            && (forall i, j :: 0 <= i < j < |policy.order| ==> policy.order[i] != policy.order[j]))
      && (plan.Targets? ==> (t in plan.targets <==> Due(policy, r, normal.value, verification, t)))
  {
    var order := Order(policy);
    if normal.Some? && OrderOk(order) {
      var phone := normal.value;
      OffersExactly(policy, r, phone, order, t);
      forall c | c in order
        ensures Offered(policy, r, phone, c) == Some(t) <==> c == ChannelOf(t.route) && Due(policy, r, phone, false, t)
      {
        OfferedExactly(policy, r, phone, c, t);
      }
    }
  }
}
