/** Whom the handlers' calls are for, and what they say. */
module Recipients {
  import opened Domain
  import opened Events
  import CallbackUrl
  import Keys

  // ----- To whom -----

  /** The users of an event, each with the beginning of the labels of the calls for him. */
  function Parties(e: Event): seq<(string, Option<string>)> {
    match e
    case OrderMatched(buyer, seller, _, _) => [("matched:buyer", buyer), ("matched:seller", seller)]
    case SettlementProcessed(_, _, buyer, seller, _, _) => [("settlement:buyer", buyer), ("settlement:seller", seller)]
    case VppDispatched(_, _, _, admin, user) => [("", if admin.Some? then admin else user)]
    case PriceAlertTriggered(user, _, _, _) => [("", user)]
    case UserOnboarded(user, _, _) => [("", user)]
    case MeterOnboarded(user, _, _, _) => [("", user)]
    case UserWalletLinked(user, _, _, _) => [("", user)]
    case UserWalletUnlinked(user, _) => [("", user)]
    case UserWalletPrimaryChanged(user, _) => [("", user)]
    case OrderCreated(_, user, _, _, _, _, _) => [("", user)]
    case OrderUpdate(_, user, _, _) => [("", user)]
    case MeterRegistered(user, _, _, _, _) => [("", user)]
    case _ => []
  }

  /** The e-mail address of an event. */
  function Address(e: Event): Option<string> {
    match e
    case EmailVerified(_, email, _) => Some(email)
    case ErcIssued(_, mail, recipientEmail, _, _) =>
      if mail.Some? && mail.value != "" then mail else recipientEmail
    case PasswordResetRequested(_, email, _, _) => Some(email)
    case VerificationEmailRequested(_, email, _, _, _) => Some(email)
    case WalletLinkRequested(_, email, _, _, _, _) => Some(email)
    case AccountLocked(identifier, _) => Some(identifier)
    case _ => None
  }

  /** These events are pushed as well, an order update only when it is the last. */
  predicate Pushed(e: Event) {
    || e.OrderMatched? || e.SettlementProcessed? || e.PriceAlertTriggered?
    || e.UserWalletLinked? || e.UserWalletUnlinked? || e.UserWalletPrimaryChanged?
    || (e.OrderUpdate? && (e.status == "filled" || e.status == "cancelled" || e.status == "expired"))
  }

  predicate Parses(env: Env, user: Option<string>) {
    user.Some? && env.parseUuid(user.value).Some?
  }

  /** The call is for this party: its label says so, its recipient is the party's id, and if it names a role, that
      is the party's. */
  predicate IsFor(env: Env, p: Planned, party: (string, Option<string>)) {
    && party.0 <= p.tag && Parses(env, party.1)
    && p.content.recipient == env.showUuid(env.parseUuid(party.1.value).value)
    && ("role" in p.content.variables ==> HasRole(party.0, p.content.variables["role"].text))
  }

  predicate HasRole(start: string, role: string) {
    start == "matched:" + role || start == "settlement:" + role
  }

  /** Every call is for the party that its label names, or for the event's address. */
  ghost predicate Rightly(env: Env, e: Event, p: Planned) {
    match p.content.channel
    case WebSocket => exists k :: 0 <= k < |Parties(e)| && IsFor(env, p, Parties(e)[k])
    case Push => Pushed(e) && exists k :: 0 <= k < |Parties(e)| && IsFor(env, p, Parties(e)[k])
    case Email => Address(e) == Some(p.content.recipient) && p.content.recipient != ""
    case _ => false
  }

  /** The party has its call on this channel. */
  ghost predicate Told(env: Env, plan: seq<Planned>, channel: Channel, party: (string, Option<string>)) {
    exists p :: p in plan && p.content.channel == channel && IsFor(env, p, party)
  }

  ghost predicate WellAddressed(env: Env, e: Event, plan: seq<Planned>) {
    && (forall p :: p in plan ==> Rightly(env, e, p))
    && (forall k :: 0 <= k < |Parties(e)| && Parses(env, Parties(e)[k].1) ==>
          Told(env, plan, WebSocket, Parties(e)[k]) && (Pushed(e) ==> Told(env, plan, Channel.Push, Parties(e)[k])))
  }

  /** Both calls of a matched party are for it. */
  lemma MatchedIsFor(env: Env, role: string, party: Option<string>, amount: Json, price: Json,
                     k: (string, Option<string>))
    requires k == ("matched:" + role, party)
    ensures Pair(env, MatchedParty(env, role, party, amount, price), k)
  {
    assert "matched:" + role + ":ws" == k.0 + ":ws" && "matched:" + role + ":push" == k.0 + ":push";
  }

  lemma SettledIsFor(env: Env, role: string, party: Option<string>, status: string, tx: string, amount: Json,
                     price: Json, k: (string, Option<string>))
    requires k == ("settlement:" + role, party)
    ensures Pair(env, SettledParty(env, role, party, status, tx, amount, price), k)
  {
    assert "settlement:" + role + ":push" == k.0 + ":push";
  }

  /** A call in the app and a push, if the party's id parses. */
  ghost predicate Pair(env: Env, plan: seq<Planned>, party: (string, Option<string>)) {
    && (forall p :: p in plan ==>
          IsFor(env, p, party) && (p.content.channel == WebSocket || p.content.channel == Channel.Push))
    && (Parses(env, party.1) ==>
          |plan| == 2 && plan[0].content.channel == WebSocket && plan[1].content.channel == Channel.Push)
  }

  lemma PairTells(env: Env, plan: seq<Planned>, party: (string, Option<string>), all: seq<Planned>)
    requires Pair(env, plan, party) && Parses(env, party.1) && forall p :: p in plan ==> p in all
    ensures Told(env, all, WebSocket, party) && Told(env, all, Channel.Push, party)
  {
    assert plan[0] in plan && plan[1] in plan;
  }

  lemma PairIsRight(env: Env, e: Event, plan: seq<Planned>, k: nat)
    requires k < |Parties(e)| && Pushed(e) && Pair(env, plan, Parties(e)[k])
    ensures forall p :: p in plan ==> Rightly(env, e, p)
  {
  }

  /** A plan made of two parties' calls. */
  lemma TwoParties(env: Env, e: Event, a: seq<Planned>, b: seq<Planned>)
    requires |Parties(e)| == 2 && Pushed(e) && Pair(env, a, Parties(e)[0]) && Pair(env, b, Parties(e)[1])
    ensures WellAddressed(env, e, a + b)
  {
    PairIsRight(env, e, a, 0);
    PairIsRight(env, e, b, 1);
    if Parses(env, Parties(e)[0].1) {
      PairTells(env, a, Parties(e)[0], a + b);
    }
    if Parses(env, Parties(e)[1].1) {
      PairTells(env, b, Parties(e)[1], a + b);
    }
  }

  lemma MatchedWellAddressed(env: Env, buyer: Option<string>, seller: Option<string>, amount: Json, price: Json)
    ensures var e := OrderMatched(buyer, seller, amount, price); WellAddressed(env, e, Plan(env, e))
  {
    var e := OrderMatched(buyer, seller, amount, price);
    assert "matched:" + "buyer" == "matched:buyer" && "matched:" + "seller" == "matched:seller";
    MatchedIsFor(env, "buyer", buyer, amount, price, Parties(e)[0]);
    MatchedIsFor(env, "seller", seller, amount, price, Parties(e)[1]);
    TwoParties(env, e, MatchedParty(env, "buyer", buyer, amount, price),
               MatchedParty(env, "seller", seller, amount, price));
  }

  lemma SettledWellAddressed(env: Env, status: string, tx: string, buyer: Option<string>, seller: Option<string>,
                             amount: Json, price: Json)
    ensures var e := SettlementProcessed(status, tx, buyer, seller, amount, price); WellAddressed(env, e, Plan(env, e))
  {
    var e := SettlementProcessed(status, tx, buyer, seller, amount, price);
    var shown := if status == "" then "unknown" else status;
    assert "settlement:" + "buyer" == "settlement:buyer" && "settlement:" + "seller" == "settlement:seller";
    SettledIsFor(env, "buyer", buyer, shown, tx, amount, price, Parties(e)[0]);
    SettledIsFor(env, "seller", seller, shown, tx, amount, price, Parties(e)[1]);
    TwoParties(env, e, SettledParty(env, "buyer", buyer, shown, tx, amount, price),
               SettledParty(env, "seller", seller, shown, tx, amount, price));
  }

  /** A plan for one user: in the app, and pushed where the event is. */
  lemma OneParty(env: Env, e: Event, plan: seq<Planned>, uid: Id)
    requires |Parties(e)| == 1 && Parties(e)[0].0 == ""
    requires Parses(env, Parties(e)[0].1) && env.parseUuid(Parties(e)[0].1.value) == Some(uid)
    requires |plan| == if Pushed(e) then 2 else 1
    requires plan[0].content.channel == WebSocket && plan[0].content.recipient == env.showUuid(uid)
    requires Pushed(e) ==> plan[1].content.channel == Channel.Push && plan[1].content.recipient == env.showUuid(uid)
    requires forall p :: p in plan ==> "role" !in p.content.variables
    ensures WellAddressed(env, e, plan)
  {
    assert IsFor(env, plan[0], Parties(e)[0]) && plan[0] in plan;
    if Pushed(e) {
      assert IsFor(env, plan[1], Parties(e)[0]) && plan[1] in plan;
    }
  }

  predicate Simple(e: Event) {
    e.VppDispatched? || e.UserOnboarded? || e.MeterOnboarded? || e.OrderCreated? || e.MeterRegistered?
  }

  lemma SimpleWellAddressed(env: Env, e: Event)
    requires Simple(e)
    ensures WellAddressed(env, e, Plan(env, e))
  {
    var user := Parties(e)[0].1;
    if Parses(env, user) {
      OneParty(env, e, Plan(env, e), env.parseUuid(user.value).value);
    } else {
      assert Plan(env, e) == [];
    }
  }

  lemma LinkedWellAddressed(env: Env, e: Event)
    requires e.UserWalletLinked?
    ensures WellAddressed(env, e, Plan(env, e))
  {
    if Parses(env, e.user) {
      OneParty(env, e, Plan(env, e), env.parseUuid(e.user.value).value);
    } else {
      assert Plan(env, e) == [];
    }
  }

  lemma UnlinkedWellAddressed(env: Env, e: Event)
    requires e.UserWalletUnlinked? || e.UserWalletPrimaryChanged?
    ensures WellAddressed(env, e, Plan(env, e))
  {
    if Parses(env, e.user) {
      OneParty(env, e, Plan(env, e), env.parseUuid(e.user.value).value);
    } else {
      assert Plan(env, e) == [];
    }
  }

  lemma AlertWellAddressed(env: Env, e: Event)
    requires e.PriceAlertTriggered? || e.OrderUpdate?
    ensures WellAddressed(env, e, Plan(env, e))
  {
    var user := Parties(e)[0].1;
    if Parses(env, user) {
      OneParty(env, e, Plan(env, e), env.parseUuid(user.value).value);
    } else {
      assert Plan(env, e) == [];
    }
  }

  lemma MailWellAddressed(env: Env, e: Event)
    requires Mails(e)
    ensures WellAddressed(env, e, Plan(env, e))
  {
    assert |Plan(env, e)| <= 1;
    forall p | p in Plan(env, e)
      ensures p.content.channel == Email && Address(e) == Some(p.content.recipient) && p.content.recipient != ""
    {
    }
  }

  /** Each call goes to the party its label names, or to the event's address, and each party whose id parses is told
      in the app and, where the event is pushed, by a push. */
  lemma PlansWellAddressed(env: Env, e: Event)
    ensures WellAddressed(env, e, Plan(env, e))
  {
    match e
    case OrderMatched(buyer, seller, amount, price) => MatchedWellAddressed(env, buyer, seller, amount, price);
    case SettlementProcessed(status, tx, buyer, seller, amount, price) =>
      SettledWellAddressed(env, status, tx, buyer, seller, amount, price);
    case _ =>
      if Mails(e) {
        MailWellAddressed(env, e);
      } else if Simple(e) {
        SimpleWellAddressed(env, e);
      } else if e.PriceAlertTriggered? || e.OrderUpdate? {
        AlertWellAddressed(env, e);
      } else if e.UserWalletLinked? {
        LinkedWellAddressed(env, e);
      } else if e.UserWalletUnlinked? || e.UserWalletPrimaryChanged? {
        UnlinkedWellAddressed(env, e);
      }
  }

  // ----- What they say -----

  /** What a template variable of this name stands for, whichever the template. */
  function Meaning(e: Event, name: string): Option<Json> {
    match name
    case "amount" => AmountOf(e)
    case "price" => PriceOf(e)
    case "name" => NameOf(e)
    case "wallet_address" => WalletOf(e)
    case "status" => StatusOf(e)
    case "transaction_signature" => SignatureOf(e)
    case "order_id" => OrderOf(e)
    case "target_price" => if e.PriceAlertTriggered? then Some(e.targetPrice) else None
    case "triggered_price" => if e.PriceAlertTriggered? then Some(e.triggeredPrice) else None
    case "condition" => if e.PriceAlertTriggered? then Some(Text(e.condition)) else None
    case "tx_signature" => if e.SettlementProcessed? then Some(Text(e.txSignature)) else None
    case "cluster_id" => if e.VppDispatched? then Some(Text(e.clusterId)) else None
    case "target_kw" => if e.VppDispatched? then Some(e.targetKw) else None
    case "members_count" => if e.VppDispatched? then Some(e.members) else None
    case "shard_id" => if e.UserWalletLinked? then Some(Other(Keys.Decimal(e.shardId))) else None
    case "user_account_pda" => if e.UserOnboarded? then Some(Text(e.pda)) else None
    case "meter_type" => if e.MeterOnboarded? then Some(Text(e.meterType)) else None
    case "meter_id" => MeterOf(e)
    case "serial_number" => if e.MeterRegistered? then Some(Text(e.serial)) else None
    case "identifier" => if e.AccountLocked? then Some(Text(e.identifier)) else None
    case "order_type" => if e.OrderCreated? then Some(Text(e.orderType)) else None
    case "side" => if e.OrderCreated? then Some(Text(e.side)) else None
    case "energy_amount" => if e.OrderCreated? then Some(Text(e.energyAmount.text)) else None
    case "price_per_kwh" => if e.OrderCreated? then Some(Text(e.price.text)) else None
    case "filled_amount" => if e.OrderUpdate? then Some(Text(e.filled.text)) else None
    case _ => None
  }

  function AmountOf(e: Event): Option<Json> {
    match e
    case OrderMatched(_, _, amount, _) => Some(amount)
    case SettlementProcessed(_, _, _, _, amount, _) => Some(amount)
    case ErcIssued(_, _, _, amount, _) => Some(amount)
    case _ => None
  }

  function PriceOf(e: Event): Option<Json> {
    match e
    case OrderMatched(_, _, _, price) => Some(price)
    case SettlementProcessed(_, _, _, _, _, price) => Some(price)
    case _ => None
  }

  function NameOf(e: Event): Option<Json> {
    match e
    case EmailVerified(_, _, username) => Some(Text(username))
    case VerificationEmailRequested(_, _, username, _, _) => Some(Text(username))
    case WalletLinkRequested(_, _, username, _, _, _) => Some(Text(username))
    case _ => None
  }

  function WalletOf(e: Event): Option<Json> {
    match e
    case WalletLinkRequested(_, _, _, wallet, _, _) => Some(Text(wallet))
    case UserWalletLinked(_, wallet, _, _) => Some(Text(wallet))
    case UserWalletUnlinked(_, wallet) => Some(Text(wallet))
    case UserWalletPrimaryChanged(_, wallet) => Some(Text(wallet))
    case _ => None
  }

  function StatusOf(e: Event): Option<Json> {
    match e
    case SettlementProcessed(status, _, _, _, _, _) => Some(Text(if status == "" then "unknown" else status))
    case OrderCreated(_, _, _, _, _, _, status) => Some(Text(status))
    case OrderUpdate(_, _, _, status) => Some(Text(status))
    case MeterRegistered(_, _, _, _, status) => Some(Text(status))
    case _ => None
  }

  function SignatureOf(e: Event): Option<Json> {
    match e
    case UserOnboarded(_, _, signature) => Some(Text(signature))
    case MeterOnboarded(_, _, _, signature) => Some(Text(signature))
    case UserWalletLinked(_, _, _, signature) => Some(Text(signature))
    case UserWalletUnlinked(_, _) => Some(Text(""))
    case UserWalletPrimaryChanged(_, _) => Some(Text(""))
    case _ => None
  }

  function MeterOf(e: Event): Option<Json> {
    match e
    case MeterOnboarded(_, meterId, _, _) => Some(Text(meterId))
    case MeterRegistered(_, _, meter, _, _) => Some(Text(meter.UnwrapOr("")))
    case _ => None
  }

  function OrderOf(e: Event): Option<Json> {
    match e
    case OrderCreated(orderId, _, _, _, _, _, _) => Some(Text(orderId.UnwrapOr("")))
    case OrderUpdate(orderId, _, _, _) => Some(Text(orderId.UnwrapOr("")))
    case _ => None
  }

  /** Each variable carries what its name stands for. */
  ghost predicate Truthful(e: Event, plan: seq<Planned>) {
    forall p, v :: p in plan && v in p.content.variables && Meaning(e, v).Some? ==>
      p.content.variables[v] == Meaning(e, v).value
  }

  /** A mail with a link, and a name or a wallet beside it. */
  lemma LinkMail(e: Event, plan: seq<Planned>)
    requires |plan| <= 1
    requires forall p :: p in plan ==>
      var vars := p.content.variables;
      && vars.Keys <= {"name", "wallet_address", "verification_url", "confirmation_url", "reset_url"}
      && ("name" in vars ==> NameOf(e) == Some(vars["name"]))
      && ("wallet_address" in vars ==> WalletOf(e) == Some(vars["wallet_address"]))
    ensures Truthful(e, plan)
  {
  }

  /** A security alert, and its push. */
  lemma AlertAndPush(e: Event, plan: seq<Planned>)
    requires |plan| <= 2 && (e.UserWalletLinked? || e.UserWalletUnlinked? || e.UserWalletPrimaryChanged?)
    requires |plan| > 0 ==>
      var vars := plan[0].content.variables;
      && vars.Keys == {"headline", "summary", "wallet_address", "shard_id", "transaction_signature"}
      && WalletOf(e) == Some(vars["wallet_address"]) && SignatureOf(e) == Some(vars["transaction_signature"])
      && (e.UserWalletLinked? ==> vars["shard_id"] == Other(Keys.Decimal(e.shardId)))
    requires |plan| > 1 ==> plan[1].content.variables.Keys == {"title", "body"}
    ensures Truthful(e, plan)
  {
  }

  /** What the call in the app says decides: a push has a title and a body only. */
  lemma AppAndPush(e: Event, plan: seq<Planned>)
    requires |plan| <= 2 && (|plan| > 0 ==> Truthful(e, plan[..1]))
    requires |plan| > 1 ==> plan[1].content.variables.Keys == {"title", "body"}
    ensures Truthful(e, plan)
  {
    assert Meaning(e, "title").None? && Meaning(e, "body").None?;
    assert |plan| > 0 ==> plan[0] in plan[..1];
  }

  lemma WelcomeTruthful(env: Env, e: Event)
    requires e.EmailVerified?
    ensures Truthful(e, Plan(env, e))
  {
  }

  lemma ErcTruthful(env: Env, e: Event)
    requires e.ErcIssued?
    ensures Truthful(e, Plan(env, e))
  {
  }

  lemma LockedTruthful(env: Env, e: Event)
    requires e.AccountLocked?
    ensures Truthful(e, Plan(env, e))
  {
  }

  lemma ResetTruthful(env: Env, e: Event)
    requires e.PasswordResetRequested?
    ensures Truthful(e, Plan(env, e))
  {
    LinkMail(e, Plan(env, e));
  }

  lemma VerifyTruthful(env: Env, e: Event)
    requires e.VerificationEmailRequested?
    ensures Truthful(e, Plan(env, e))
  {
    LinkMail(e, Plan(env, e));
  }

  lemma ConfirmTruthful(env: Env, e: Event)
    requires e.WalletLinkRequested?
    ensures Truthful(e, Plan(env, e))
  {
    LinkMail(e, Plan(env, e));
  }

  lemma VppTruthful(env: Env, e: Event)
    requires e.VppDispatched?
    ensures Truthful(e, Plan(env, e))
  {
  }

  lemma OnboardTruthful(env: Env, e: Event)
    requires e.UserOnboarded?
    ensures Truthful(e, Plan(env, e))
  {
  }

  lemma MeterTruthful(env: Env, e: Event)
    requires e.MeterOnboarded?
    ensures Truthful(e, Plan(env, e))
  {
  }

  lemma CreatedTruthful(env: Env, e: Event)
    requires e.OrderCreated?
    ensures Truthful(e, Plan(env, e))
  {
  }

  lemma RegisteredTruthful(env: Env, e: Event)
    requires e.MeterRegistered?
    ensures Truthful(e, Plan(env, e))
  {
  }

  lemma PriceTruthful(env: Env, e: Event)
    requires e.PriceAlertTriggered?
    ensures Truthful(e, Plan(env, e))
  {
    AppAndPush(e, Plan(env, e));
  }

  lemma UpdateTruthful(env: Env, e: Event)
    requires e.OrderUpdate?
    ensures Truthful(e, Plan(env, e))
  {
    AppAndPush(e, Plan(env, e));
  }

  lemma LinkedTruthful(env: Env, e: Event)
    requires e.UserWalletLinked?
    ensures Truthful(e, Plan(env, e))
  {
    AlertAndPush(e, Plan(env, e));
  }

  lemma UnlinkedTruthful(env: Env, e: Event)
    requires e.UserWalletUnlinked?
    ensures Truthful(e, Plan(env, e))
  {
    AlertAndPush(e, Plan(env, e));
  }

  lemma PrimaryTruthful(env: Env, e: Event)
    requires e.UserWalletPrimaryChanged?
    ensures Truthful(e, Plan(env, e))
  {
    AlertAndPush(e, Plan(env, e));
  }

  lemma MatchedTruthful(env: Env, e: Event, role: string, party: Option<string>)
    requires e.OrderMatched?
    ensures Truthful(e, MatchedParty(env, role, party, e.amount, e.price))
  {
  }

  lemma SettledTruthful(env: Env, e: Event, role: string, party: Option<string>, shown: string)
    requires e.SettlementProcessed? && shown == if e.status == "" then "unknown" else e.status
    ensures Truthful(e, SettledParty(env, role, party, shown, e.txSignature, e.amount, e.price))
  {
  }

  lemma BothTruthful(e: Event, a: seq<Planned>, b: seq<Planned>)
    requires Truthful(e, a) && Truthful(e, b)
    ensures Truthful(e, a + b)
  {
  }

  /** In every call of every event each template variable carries the field its name stands for. */
  lemma PlansTruthful(env: Env, e: Event)
    ensures Truthful(e, Plan(env, e))
  {
    match e
    case OrderMatched(buyer, seller, amount, price) =>
      MatchedTruthful(env, e, "buyer", buyer);
      MatchedTruthful(env, e, "seller", seller);
      BothTruthful(e, MatchedParty(env, "buyer", buyer, amount, price),
                   MatchedParty(env, "seller", seller, amount, price));
    case SettlementProcessed(status, tx, buyer, seller, amount, price) =>
      var shown := if status == "" then "unknown" else status;
      SettledTruthful(env, e, "buyer", buyer, shown);
      SettledTruthful(env, e, "seller", seller, shown);
      BothTruthful(e, SettledParty(env, "buyer", buyer, shown, tx, amount, price),
                   SettledParty(env, "seller", seller, shown, tx, amount, price));
    case EmailVerified(_, _, _) => WelcomeTruthful(env, e);
    case ErcIssued(_, _, _, _, _) => ErcTruthful(env, e);
    case AccountLocked(_, _) => LockedTruthful(env, e);
    case PasswordResetRequested(_, _, _, _) => ResetTruthful(env, e);
    case VerificationEmailRequested(_, _, _, _, _) => VerifyTruthful(env, e);
    case WalletLinkRequested(_, _, _, _, _, _) => ConfirmTruthful(env, e);
    case VppDispatched(_, _, _, _, _) => VppTruthful(env, e);
    case UserOnboarded(_, _, _) => OnboardTruthful(env, e);
    case MeterOnboarded(_, _, _, _) => MeterTruthful(env, e);
    case OrderCreated(_, _, _, _, _, _, _) => CreatedTruthful(env, e);
    case MeterRegistered(_, _, _, _, _) => RegisteredTruthful(env, e);
    case PriceAlertTriggered(_, _, _, _) => PriceTruthful(env, e);
    case OrderUpdate(_, _, _, _) => UpdateTruthful(env, e);
    case UserWalletLinked(_, _, _, _) => LinkedTruthful(env, e);
    case UserWalletUnlinked(_, _) => UnlinkedTruthful(env, e);
    case UserWalletPrimaryChanged(_, _) => PrimaryTruthful(env, e);
    case UserRegistered =>
    case Unhandled =>
  }

  // ----- What the pushes say -----

  /** The text of a push names the event's own figures, in this order. */
  ghost predicate PushSays(e: Event, body: string) {
    match e
    case OrderMatched(_, _, amount, price) => exists pre :: body == pre + amount.text + " kWh @ " + price.text
    case SettlementProcessed(_, _, _, _, amount, price) =>
      exists pre :: body == pre + amount.text + " kWh @ " + price.text
    case PriceAlertTriggered(_, target, triggered, _) =>
      exists pre :: body == pre + target.text + "). Market price: " + triggered.text
    case OrderUpdate(_, _, filled, status) => body == "Your order is " + status + " (" + filled.text + " kWh filled)."
    case UserWalletLinked(_, wallet, _, _) => exists pre, post :: body == pre + wallet + post
    case UserWalletUnlinked(_, wallet) => exists pre, post :: body == pre + wallet + post
    case UserWalletPrimaryChanged(_, wallet) => exists pre, post :: body == pre + wallet + post
    case _ => false
  }

  ghost predicate PushesSay(e: Event, plan: seq<Planned>) {
    forall p :: p in plan && p.content.channel == Channel.Push ==>
      "body" in p.content.variables && PushSays(e, p.content.variables["body"].text)
  }

  lemma MatchedPushSays(env: Env, e: Event, role: string, party: Option<string>)
    requires e.OrderMatched?
    ensures PushesSay(e, MatchedParty(env, role, party, e.amount, e.price))
  {
    var pre := "Your " + role + " order matched: ";
    assert PushSays(e, pre + e.amount.text + " kWh @ " + e.price.text);
  }

  lemma SettledPushSays(env: Env, e: Event, role: string, party: Option<string>, status: string)
    requires e.SettlementProcessed?
    ensures PushesSay(e, SettledParty(env, role, party, status, e.txSignature, e.amount, e.price))
  {
    var pre := "Your " + role + " trade settled (" + status + "): ";
    assert PushSays(e, pre + e.amount.text + " kWh @ " + e.price.text);
  }

  lemma PricePushSays(env: Env, e: Event)
    requires e.PriceAlertTriggered?
    ensures PushesSay(e, Plan(env, e))
  {
    var pre := "Alert fired (" + e.condition + " ";
    assert PushSays(e, pre + e.targetPrice.text + "). Market price: " + e.triggeredPrice.text);
  }

  lemma LinkedPushSays(env: Env, e: Event)
    requires e.UserWalletLinked?
    ensures PushesSay(e, Plan(env, e))
  {
    assert PushSays(e, "A wallet (" + e.wallet + ") was linked to your account.");
  }

  lemma UnlinkedPushSays(env: Env, e: Event)
    requires e.UserWalletUnlinked?
    ensures PushesSay(e, Plan(env, e))
  {
    assert PushSays(e, "A wallet (" + e.wallet + ") was removed from your account.");
  }

  lemma PrimaryPushSays(env: Env, e: Event)
    requires e.UserWalletPrimaryChanged?
    ensures PushesSay(e, Plan(env, e))
  {
    assert PushSays(e, "Your primary wallet is now " + e.wallet + ".");
  }

  lemma UpdatePushSays(env: Env, e: Event)
    requires e.OrderUpdate?
    ensures PushesSay(e, Plan(env, e))
  {
    assert PushSays(e, "Your order is " + e.status + " (" + e.filled.text + " kWh filled).");
  }

  lemma OthersPushNothing(env: Env, e: Event)
    requires !Pushed(e) && !e.OrderUpdate?
    ensures PushesSay(e, Plan(env, e))
  {
    assert |Plan(env, e)| <= 1;
  }

  /** Every push names its event's own figures. */
  lemma PlansPushesSay(env: Env, e: Event)
    ensures PushesSay(e, Plan(env, e))
  {
    match e
    case OrderMatched(buyer, seller, _, _) =>
      MatchedPushSays(env, e, "buyer", buyer);
      MatchedPushSays(env, e, "seller", seller);
    case SettlementProcessed(status, _, buyer, seller, _, _) =>
      SettledPushSays(env, e, "buyer", buyer, if status == "" then "unknown" else status);
      SettledPushSays(env, e, "seller", seller, if status == "" then "unknown" else status);
    case PriceAlertTriggered(_, _, _, _) => PricePushSays(env, e);
    case UserWalletLinked(_, _, _, _) => LinkedPushSays(env, e);
    case UserWalletUnlinked(_, _) => UnlinkedPushSays(env, e);
    case UserWalletPrimaryChanged(_, _) => PrimaryPushSays(env, e);
    case OrderUpdate(_, _, _, _) => UpdatePushSays(env, e);
    case _ => OthersPushNothing(env, e);
  }

  // ----- Where the links lead -----

  /** The link of a verification mail is read back as the page, the token and the address, however many slashes the
      frontend ends with, exactly when it has neither a query nor a fragment of its own. */
  lemma VerifyMailReads(env: Env, base: string, bare: string, user: Option<string>, email: string, username: string,
                        token: string)
    requires env.frontend == Some(base) && CallbackUrl.Slashed(base, bare) && email != "" && token != ""
    ensures var plan := Plan(env, VerificationEmailRequested(user, email, username, "", token));
      && LinkIn(plan, "verification_url").Some?
      && (CallbackUrl.ReadLink(LinkIn(plan, "verification_url").value.text)
          == Some((bare + "/" + "verify", Some(CallbackUrl.Param("token", env.utf8(token))),
                   Some(CallbackUrl.Param("email", env.utf8(email)))))
          <==> CallbackUrl.PlainBase(base))
  {
    VerificationNeedsLink(env, user, email, username, "", token);
    CallbackUrl.VerifyLinkRoundTrip(base, bare, env.utf8(token), env.utf8(email));
  }

  /** That of a wallet confirmation mail as the page, the token and the wallet. */
  lemma ConfirmMailReads(env: Env, base: string, bare: string, user: Option<string>, email: string, username: string,
                         wallet: string, token: string)
    requires env.frontend == Some(base) && CallbackUrl.Slashed(base, bare)
    requires email != "" && wallet != "" && token != ""
    ensures var plan := Plan(env, WalletLinkRequested(user, email, username, wallet, "", token));
      && LinkIn(plan, "confirmation_url").Some?
      && (CallbackUrl.ReadLink(LinkIn(plan, "confirmation_url").value.text)
          == Some((bare + "/" + "wallet/confirm", Some(CallbackUrl.Param("token", env.utf8(token))),
                   Some(CallbackUrl.Param("wallet", env.utf8(wallet)))))
          <==> CallbackUrl.PlainBase(base))
  {
    ConfirmationNeedsLink(env, user, email, username, wallet, "", token);
    CallbackUrl.WalletLinkRoundTrip(base, bare, env.utf8(token), env.utf8(wallet));
  }

  /** That of a reset mail as the page and the token, exactly when nothing in the token needs encoding. */
  lemma ResetMailReads(env: Env, base: string, bare: string, user: Option<string>, email: string,
                       token: seq<CallbackUrl.Byte>)
    requires env.frontend == Some(base) && CallbackUrl.Slashed(base, bare) && CallbackUrl.PlainBase(base)
    requires email != "" && token != []
    ensures var plan := Plan(env, PasswordResetRequested(user, email, "", CallbackUrl.Raw(token)));
      && LinkIn(plan, "reset_url").Some?
      && (CallbackUrl.ReadLink(LinkIn(plan, "reset_url").value.text)
          == Some((bare + "/" + "reset-password", Some(CallbackUrl.Param("token", token)), None))
          <==> CallbackUrl.Verbatim(CallbackUrl.Raw(token)))
  {
    var raw := CallbackUrl.Raw(token);
    ResetMailsEmptyLink(env, user, email, "", raw);
    CallbackUrl.ResetLinkExact(base, bare, token);
    assert "token=" + raw == "token" + "=" + raw;
  }

  /** A link that the event brings is mailed, whatever its token is, rewritten to the frontend. */
  lemma ResetIsRewritten(env: Env, user: Option<string>, email: string, url: string, token: string)
    requires email != "" && url != ""
    ensures LinkIn(Plan(env, PasswordResetRequested(user, email, url, token)), "reset_url")
         == Some(Text(CallbackUrl.RewriteUrl(env.frontend, url)))
  {
    ResetMailsEmptyLink(env, user, email, url, token);
  }

  lemma VerificationIsRewritten(env: Env, user: Option<string>, email: string, username: string, url: string,
                                token: string)
    requires email != "" && url != ""
    ensures LinkIn(Plan(env, VerificationEmailRequested(user, email, username, url, token)), "verification_url")
         == Some(Text(CallbackUrl.RewriteUrl(env.frontend, url)))
  {
    VerificationNeedsLink(env, user, email, username, url, token);
  }

  lemma ConfirmationIsRewritten(env: Env, user: Option<string>, email: string, username: string, wallet: string,
                                url: string, token: string)
    requires email != "" && wallet != "" && url != ""
    ensures LinkIn(Plan(env, WalletLinkRequested(user, email, username, wallet, url, token)), "confirmation_url")
         == Some(Text(CallbackUrl.RewriteUrl(env.frontend, url)))
  {
    ConfirmationNeedsLink(env, user, email, username, wallet, url, token);
  }

  /** Its origin becomes the frontend's, and path and query stay; without a frontend it is mailed as it is. */
  lemma UpstreamIsMailed(env: Env, scheme: string, authority: string, rest: string, token: string, path: string,
                         query: string)
    requires CallbackUrl.AbsoluteLink(scheme, authority, rest) && "/" <= rest
    ensures var url := scheme + "://" + (authority + rest);
      var link := CallbackLink(env, url, token, path, query);
      && (env.frontend.None? ==> link == url)
      && (forall bare :: env.frontend.Some? && CallbackUrl.Slashed(env.frontend.value, bare) ==> link == bare + rest)
  {
    forall bare | env.frontend.Some? && CallbackUrl.Slashed(env.frontend.value, bare)
      ensures CallbackLink(env, scheme + "://" + (authority + rest), token, path, query) == bare + rest
    {
      CallbackUrl.RewriteExact(env.frontend.value, bare, scheme, authority, rest);
    }
  }

  /** The welcome mail leads to the frontend, without a slash at its end, or to the public site. */
  lemma WelcomeLeads(env: Env, user: Option<string>, email: string, username: string, bare: string)
    requires email != "" && (env.frontend.Some? ==> CallbackUrl.Slashed(env.frontend.value, bare))
    ensures LinkIn(Plan(env, EmailVerified(user, email, username)), "dashboard_url")
         == Some(Text(if env.frontend.Some? then bare else "https://app.gridtokenx.xyz"))
  {
    if env.frontend.Some? {
      CallbackUrl.TrimmedToBare(env.frontend.value, bare);
    }
  }

  // ----- From which templates -----

  function TemplateOf(e: Event): string {
    match e
    case EmailVerified(_, _, _) => "welcome.html.tera"
    case OrderMatched(_, _, _, _) => "trade_matched.txt.tera"
    case SettlementProcessed(_, _, _, _, _, _) => "settlement_processed.txt.tera"
    case ErcIssued(_, _, _, _, _) => "erc_issued.html.tera"
    case VppDispatched(_, _, _, _, _) => "vpp_dispatched.txt.tera"
    case PriceAlertTriggered(_, _, _, _) => "price_alert_triggered.txt.tera"
    case PasswordResetRequested(_, _, _, _) => "password_reset.html.tera"
    case VerificationEmailRequested(_, _, _, _, _) => "verify_email.html.tera"
    case UserOnboarded(_, _, _) => "user_onboarded.txt.tera"
    case MeterOnboarded(_, _, _, _) => "meter_onboarded.txt.tera"
    case WalletLinkRequested(_, _, _, _, _, _) => "confirm_wallet.html.tera"
    case AccountLocked(_, _) => "account_locked.html.tera"
    case OrderCreated(_, _, _, _, _, _, _) => "order_created.txt.tera"
    case OrderUpdate(_, _, _, _) => "order_update.txt.tera"
    case MeterRegistered(_, _, _, _, _) => "meter_registered.txt.tera"
    case _ => "security_alert.txt.tera"
  }

  ghost predicate Templated(e: Event, plan: seq<Planned>) {
    forall p :: p in plan ==>
      p.content.template == if p.content.channel == Channel.Push then "push_notification.txt.tera" else TemplateOf(e)
  }

  lemma MailsTemplated(env: Env, e: Event)
    requires Mails(e)
    ensures Templated(e, Plan(env, e))
  {
    assert |Plan(env, e)| <= 1;
  }

  lemma SimpleTemplated(env: Env, e: Event)
    requires Simple(e)
    ensures Templated(e, Plan(env, e))
  {
    assert |Plan(env, e)| <= 1;
  }

  lemma AlertsTemplated(env: Env, e: Event)
    requires e.PriceAlertTriggered? || e.OrderUpdate?
    ensures Templated(e, Plan(env, e))
  {
  }

  lemma WalletsTemplated(env: Env, e: Event)
    requires e.UserWalletLinked? || e.UserWalletUnlinked? || e.UserWalletPrimaryChanged?
    ensures Templated(e, Plan(env, e))
  {
  }

  lemma MatchedTemplated(env: Env, e: Event, role: string, party: Option<string>)
    requires e.OrderMatched?
    ensures Templated(e, MatchedParty(env, role, party, e.amount, e.price))
  {
  }

  lemma SettledTemplated(env: Env, e: Event, role: string, party: Option<string>, status: string)
    requires e.SettlementProcessed?
    ensures Templated(e, SettledParty(env, role, party, status, e.txSignature, e.amount, e.price))
  {
  }

  /** Each event's calls are made from the event's own template, and pushes from theirs. */
  lemma PlansTemplated(env: Env, e: Event)
    ensures Templated(e, Plan(env, e))
  {
    if Mails(e) {
      MailsTemplated(env, e);
    } else if Simple(e) {
      SimpleTemplated(env, e);
    } else if e.PriceAlertTriggered? || e.OrderUpdate? {
      AlertsTemplated(env, e);
    } else if e.UserWalletLinked? || e.UserWalletUnlinked? || e.UserWalletPrimaryChanged? {
      WalletsTemplated(env, e);
    } else if e.OrderMatched? {
      MatchedTemplated(env, e, "buyer", e.buyer);
      MatchedTemplated(env, e, "seller", e.seller);
    } else if e.SettlementProcessed? {
      var shown := if e.status == "" then "unknown" else e.status;
      SettledTemplated(env, e, "buyer", e.buyer, shown);
      SettledTemplated(env, e, "seller", e.seller, shown);
    }
  }

  // ----- Figures that are worked out -----

  /** The minutes of a lockout are the fewest that cover its seconds, one at least. */
  lemma LockoutIsCovered(env: Env, identifier: string, secs: nat)
    requires '@' in identifier
    ensures var plan := Plan(env, AccountLocked(identifier, secs));
      exists minutes: nat ::
        && LinkIn(plan, "lockout_minutes") == Some(Other(Keys.Decimal(minutes)))
        && secs <= 60 * minutes && 1 <= minutes && (minutes == 1 || 60 * (minutes - 1) < secs)
  {
    var rounded := (secs + 59) / 60;
    var minutes := if rounded < 1 then 1 else rounded;
    assert LinkIn(Plan(env, AccountLocked(identifier, secs)), "lockout_minutes") == Some(Other(Keys.Decimal(minutes)));
  }

  /** The unit of an issued certificate is the event's, trimmed, unless that is blank. */
  lemma UnitIsShown(env: Env, user: Option<string>, mail: Option<string>, recipientEmail: Option<string>, amount: Json,
                    unit: Option<string>)
    requires Address(ErcIssued(user, mail, recipientEmail, amount, unit)).UnwrapOr("") != ""
    ensures LinkIn(Plan(env, ErcIssued(user, mail, recipientEmail, amount, unit)), "unit")
         == match unit
            case Some(u) => Some(Text(if env.trim(u) == "" then "MWh" else env.trim(u)))
            case None => Some(Text("MWh"))
  {
  }

  /** These mails go out exactly when there is somewhere to send them; a lockout of a login that is no address stays
      silent. */
  lemma MailedExactly(env: Env, e: Event)
    ensures e.EmailVerified? ==> (Plan(env, e) == [] <==> e.email == "")
    ensures e.ErcIssued? ==> (Plan(env, e) == [] <==> Address(e).UnwrapOr("") == "")
    ensures e.AccountLocked? ==> (Plan(env, e) == [] <==> '@' !in e.identifier)
  {
  }
}
