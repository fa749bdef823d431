/** The Kafka event handlers as plans: the keyed `queue_notification` calls an event stands for, in order. */
module Events {
  import opened Domain
  import Keys
  import CallbackUrl

  /** What a handler takes from outside the event; `wording` are the fixed sentences of the security alerts. */
  datatype Env = Env(
    frontend: Option<string>,
    parseUuid: string -> Option<Id>,
    showUuid: Id -> string,
    utf8: string -> seq<CallbackUrl.Byte>,
    trim: string -> string,
    wording: string -> string)

  datatype Event =
    | UserRegistered
    | EmailVerified(user: Option<string>, email: string, username: string)
    | OrderMatched(buyer: Option<string>, seller: Option<string>, amount: Json, price: Json)
    | SettlementProcessed(status: string, txSignature: string, buyer: Option<string>, seller: Option<string>,
                          amount: Json, price: Json)
    | ErcIssued(user: Option<string>, mail: Option<string>, recipientEmail: Option<string>, energyAmount: Json,
                energyUnit: Option<string>)
    | VppDispatched(clusterId: string, targetKw: Json, members: Json, admin: Option<string>, user: Option<string>)
    | PriceAlertTriggered(user: Option<string>, targetPrice: Json, triggeredPrice: Json, condition: string)
    | PasswordResetRequested(user: Option<string>, email: string, url: string, token: string)
    | VerificationEmailRequested(user: Option<string>, email: string, username: string, url: string, token: string)
    | UserOnboarded(user: Option<string>, pda: string, signature: string)
    | MeterOnboarded(user: Option<string>, meterId: string, meterType: string, signature: string)
    | WalletLinkRequested(user: Option<string>, email: string, username: string, wallet: string, url: string,
                          token: string)
    | UserWalletLinked(user: Option<string>, wallet: string, shardId: nat, signature: string)
    | UserWalletUnlinked(user: Option<string>, wallet: string)
    | UserWalletPrimaryChanged(user: Option<string>, wallet: string)
    | AccountLocked(identifier: string, lockoutSecs: nat)
    | OrderCreated(orderId: Option<string>, user: Option<string>, orderType: string, side: string,
                   energyAmount: Json, price: Json, status: string)
    | OrderUpdate(orderId: Option<string>, user: Option<string>, filled: Json, status: string)
    | MeterRegistered(user: Option<string>, serial: string, meter: Option<string>, zone: Option<int>, status: string)
    | Unhandled

  /** What one key stands for. */
  datatype Content = Content(channel: Channel, recipient: string, template: string, variables: Variables)

  datatype Planned = Planned(tag: string, content: Content)

  function Uid(env: Env, user: Option<string>): Option<Id> {
    if user.Some? then env.parseUuid(user.value) else None
  }

  /** A JSON value as text: strings without their quotes. */
  function Plain(v: Json): string {
    v.text
  }

  function OrEmpty(s: Option<string>): string {
    if s.Some? then s.value else ""
  }

  function Socket(env: Env, uid: Id, template: string, variables: Variables, tag: string): Planned {
    Planned(tag, Content(WebSocket, env.showUuid(uid), template, variables))
  }

  function PushTo(env: Env, uid: Id, title: string, body: string, tag: string): Planned {
    Planned(tag, Content(Push, env.showUuid(uid), "push_notification.txt.tera",
                         map["title" := Text(title), "body" := Text(body)]))
  }

  function Mail(recipient: string, template: string, variables: Variables, tag: string): Planned {
    Planned(tag, Content(Email, recipient, template, variables))
  }

  function SecurityAlert(headline: string, summary: string, wallet: string, shardId: Json, signature: string)
    : Variables
  {
    map["headline" := Text(headline), "summary" := Text(summary), "wallet_address" := Text(wallet),
        "shard_id" := shardId, "transaction_signature" := Text(signature)]
  }

  /** The three wallet handlers: in the app, and pushed. */
  function WalletAlert(env: Env, user: Option<string>, variables: Variables, title: string, body: string, tag: string)
    : (plan: seq<Planned>)
    ensures plan == [] || (|plan| == 2 && plan[0].tag == tag && plan[1].tag == tag + ":push")
  {
    match Uid(env, user)
    case None => []
    case Some(uid) =>
      [Socket(env, uid, "security_alert.txt.tera", variables, tag), PushTo(env, uid, title, body, tag + ":push")]
  }

  function MatchedParty(env: Env, role: string, party: Option<string>, amount: Json, price: Json): seq<Planned> {
    match Uid(env, party)
    case None => []
    case Some(uid) =>
      [Socket(env, uid, "trade_matched.txt.tera", map["role" := Text(role), "amount" := amount, "price" := price],
              "matched:" + role + ":ws"),
       PushTo(env, uid, "Trade Matched",
              "Your " + role + " order matched: " + Plain(amount) + " kWh @ " + Plain(price),
              "matched:" + role + ":push")]
  }

  function SettledParty(env: Env, role: string, party: Option<string>, status: string, tx: string, amount: Json,
                        price: Json): seq<Planned> {
    match Uid(env, party)
    case None => []
    case Some(uid) =>
      [Socket(env, uid, "settlement_processed.txt.tera",
              map["role" := Text(role), "status" := Text(status), "tx_signature" := Text(tx), "amount" := amount,
                  "price" := price], "settlement:" + role),
       PushTo(env, uid, "Trade Settled",
              "Your " + role + " trade settled (" + status + "): " + Plain(amount) + " kWh @ " + Plain(price),
              "settlement:" + role + ":push")]
  }

  /** The callback link of an e-mail: the upstream's, rewritten, else one built from the token. */
  function CallbackLink(env: Env, url: string, token: string, path: string, query: string): string {
    if url != "" then CallbackUrl.RewriteUrl(env.frontend, url)
    else if token != "" then CallbackUrl.BuildCallbackUrl(env.frontend, path, query)
    else ""
  }

  function ErcRecipient(mail: Option<string>, recipientEmail: Option<string>): string {
    if mail.Some? && mail.value != "" then mail.value else OrEmpty(recipientEmail)
  }

  function ErcUnit(env: Env, unit: Option<string>): string {
    if unit.Some? && env.trim(unit.value) != "" then env.trim(unit.value) else "MWh"
  }

  predicate Terminal(status: string) {
    status == "filled" || status == "cancelled" || status == "expired"
  }

  /** The calls of every handler but the sign-in alert's, which depends on the counter. */
  function Plan(env: Env, e: Event): seq<Planned> {
    match e
    case EmailVerified(_, email, username) =>
      if email == "" then [] else
        var dashboard :=
          if env.frontend.Some? then CallbackUrl.TrimEndSlashes(env.frontend.value) else "https://app.gridtokenx.xyz";
        [Mail(email, "welcome.html.tera", map["name" := Text(username), "dashboard_url" := Text(dashboard)],
              "email_verified")]
    case OrderMatched(buyer, seller, amount, price) =>
      MatchedParty(env, "buyer", buyer, amount, price) + MatchedParty(env, "seller", seller, amount, price)
    case SettlementProcessed(status, tx, buyer, seller, amount, price) =>
      var shown := if status == "" then "unknown" else status;
      SettledParty(env, "buyer", buyer, shown, tx, amount, price)
      + SettledParty(env, "seller", seller, shown, tx, amount, price)
    case ErcIssued(_, mail, recipientEmail, amount, unit) =>
      var to := ErcRecipient(mail, recipientEmail);
      if to == "" then [] else
        [Mail(to, "erc_issued.html.tera", map["amount" := amount, "unit" := Text(ErcUnit(env, unit))], "erc")]
    case VppDispatched(cluster, target, members, admin, user) =>
      (match Uid(env, if admin.Some? then admin else user)
       case None => []
       case Some(uid) =>
         [Socket(env, uid, "vpp_dispatched.txt.tera",
                 map["cluster_id" := Text(cluster), "target_kw" := target, "members_count" := members],
                 "vpp_dispatch")])
    case PriceAlertTriggered(user, target, triggered, condition) =>
      (match Uid(env, user)
       case None => []
       case Some(uid) =>
         [Socket(env, uid, "price_alert_triggered.txt.tera",
                 map["condition" := Text(condition), "target_price" := target, "triggered_price" := triggered],
                 "price_alert"),
          PushTo(env, uid, "Price Alert Triggered",
                 "Alert fired (" + condition + " " + Plain(target) + "). Market price: " + Plain(triggered),
                 "price_alert:push")])
    case PasswordResetRequested(_, email, url, token) =>
      if email == "" then [] else
        [Mail(email, "password_reset.html.tera",
              map["reset_url" := Text(CallbackLink(env, url, token, "reset-password", "token=" + token))],
              "pwd_reset")]
    case VerificationEmailRequested(_, email, username, url, token) =>
      var link := CallbackLink(env, url, token, "verify",
                               CallbackUrl.TwoParams("token", env.utf8(token), "email", env.utf8(email)));
      if email == "" || link == "" then [] else
        [Mail(email, "verify_email.html.tera", map["name" := Text(username), "verification_url" := Text(link)],
              "verify_email")]
    case UserOnboarded(user, pda, signature) =>
      (match Uid(env, user)
       case None => []
       case Some(uid) =>
         [Socket(env, uid, "user_onboarded.txt.tera",
                 map["user_account_pda" := Text(pda), "transaction_signature" := Text(signature)], "onboard")])
    case MeterOnboarded(user, meterId, meterType, signature) =>
      (match Uid(env, user)
       case None => []
       case Some(uid) =>
         [Socket(env, uid, "meter_onboarded.txt.tera",
                 map["meter_id" := Text(meterId), "meter_type" := Text(meterType),
                     "transaction_signature" := Text(signature)], "meter")])
    case WalletLinkRequested(_, email, username, wallet, url, token) =>
      var link := CallbackLink(env, url, token, "wallet/confirm",
                               CallbackUrl.TwoParams("token", env.utf8(token), "wallet", env.utf8(wallet)));
      if email == "" || wallet == "" || link == "" then [] else
        [Mail(email, "confirm_wallet.html.tera",
              map["name" := Text(username), "wallet_address" := Text(wallet), "confirmation_url" := Text(link)],
              "wallet_confirm")]
    case UserWalletLinked(user, wallet, shardId, signature) =>
      WalletAlert(env, user,
                  SecurityAlert("New Wallet Linked", env.wording("wallet_link"),
                                wallet, Other(Keys.Decimal(shardId)), signature),
                  "Security Alert: Wallet Linked", "A wallet (" + wallet + ") was linked to your account.",
                  "wallet_link")
    case UserWalletUnlinked(user, wallet) =>
      WalletAlert(env, user,
                  SecurityAlert("Wallet Unlinked", env.wording("wallet_unlink"),
                                wallet, Text(""), ""),
                  "Security Alert: Wallet Unlinked", "A wallet (" + wallet + ") was removed from your account.",
                  "wallet_unlink")
    case UserWalletPrimaryChanged(user, wallet) =>
      WalletAlert(env, user,
                  SecurityAlert("Primary Wallet Changed", env.wording("wallet_primary"), wallet, Text(""), ""),
                  "Security Alert: Primary Wallet Changed", "Your primary wallet is now " + wallet + ".",
                  "wallet_primary")
    case AccountLocked(identifier, lockoutSecs) =>
      if '@' !in identifier then [] else
        var minutes := (lockoutSecs + 59) / 60;
        [Mail(identifier, "account_locked.html.tera",
              map["identifier" := Text(identifier),
                  "lockout_minutes" := Other(Keys.Decimal(if minutes < 1 then 1 else minutes))], "account_locked")]
    case OrderCreated(orderId, user, orderType, side, energy, price, status) =>
      (match Uid(env, user)
       case None => []
       case Some(uid) =>
         [Socket(env, uid, "order_created.txt.tera",
                 map["order_id" := Text(OrEmpty(orderId)), "order_type" := Text(orderType), "side" := Text(side),
                     "energy_amount" := Text(Plain(energy)), "price_per_kwh" := Text(Plain(price)),
                     "status" := Text(status)], "order_created")])
    case OrderUpdate(orderId, user, filled, status) =>
      (match Uid(env, user)
       case None => []
       case Some(uid) =>
         [Socket(env, uid, "order_update.txt.tera",
                 map["order_id" := Text(OrEmpty(orderId)), "filled_amount" := Text(Plain(filled)),
                     "status" := Text(status)], "order_update")]
         + if Terminal(status)
           then [PushTo(env, uid, "Order Update",
                        "Your order is " + status + " (" + Plain(filled) + " kWh filled).", "order_update:push")]
           else [])
    case MeterRegistered(user, serial, meter, zone, status) =>
      (match Uid(env, user)
       case None => []
       case Some(uid) =>
         [Socket(env, uid, "meter_registered.txt.tera",
                 map["serial_number" := Text(serial), "meter_id" := Text(OrEmpty(meter)),
                     "zone_id" := Text(if zone.Some? then Keys.Decimal(zone.value) else ""),
                     "status" := Text(status)], "meter_registered")])
    case UserRegistered => []
    case Unhandled => []
  }

  // ----- Mails without a link -----

  /** Neither a link nor the means to build one. */
  predicate NoLink(env: Env, url: string, token: string) {
    url == "" && (token == "" || env.frontend.None?)
  }

  /** The variable of this mail's link. */
  function LinkIn(plan: seq<Planned>, variable: string): Option<Json> {
    if |plan| == 1 && variable in plan[0].content.variables then Some(plan[0].content.variables[variable]) else None
  }

  /** Of the mails that carry a link, the reset mail goes out without one. */
  lemma ResetMailsEmptyLink(env: Env, user: Option<string>, email: string, url: string, token: string)
    ensures var plan := Plan(env, PasswordResetRequested(user, email, url, token));
      && (plan == [] <==> email == "")
      && (LinkIn(plan, "reset_url") == Some(Text("")) <==> email != "" && NoLink(env, url, token))
  {
  }

  /** The verification mail stays away instead. */
  lemma VerificationNeedsLink(env: Env, user: Option<string>, email: string, username: string, url: string,
                              token: string)
    ensures var plan := Plan(env, VerificationEmailRequested(user, email, username, url, token));
      && (plan == [] <==> email == "" || NoLink(env, url, token))
      && LinkIn(plan, "verification_url") != Some(Text(""))
  {
  }

  lemma ConfirmationNeedsLink(env: Env, user: Option<string>, email: string, username: string, wallet: string,
                              url: string, token: string)
    ensures var plan := Plan(env, WalletLinkRequested(user, email, username, wallet, url, token));
      && (plan == [] <==> email == "" || wallet == "" || NoLink(env, url, token))
      && LinkIn(plan, "confirmation_url") != Some(Text(""))
  {
  }

  /** What sets the calls of one event apart. */
  ghost predicate WellTagged(plan: seq<Planned>) {
    && (forall i, j :: 0 <= i < j < |plan| ==> plan[i].tag != plan[j].tag)
    && (forall p :: p in plan ==> !(Keys.KAFKA <= p.tag))
  }

  /** The tags of every handler differ in length, and none starts like the fallback form or the sign-in's. */
  ghost predicate Apart(plan: seq<Planned>) {
    && (forall i, j :: 0 <= i < j < |plan| ==> |plan[i].tag| != |plan[j].tag|)
    && (forall p :: p in plan ==> p.tag != "" && p.tag[0] != 'k' && p.tag[0] != 'n')
  }

  lemma MatchedApart(env: Env, buyer: Option<string>, seller: Option<string>, amount: Json, price: Json)
    ensures Apart(MatchedParty(env, "buyer", buyer, amount, price) + MatchedParty(env, "seller", seller, amount, price))
  {
    var a, b := MatchedParty(env, "buyer", buyer, amount, price), MatchedParty(env, "seller", seller, amount, price);
    assert a != [] ==> |a| == 2 && |a[0].tag| == 16 && |a[1].tag| == 18 && a[0].tag[0] == a[1].tag[0] == 'm';
    assert b != [] ==> |b| == 2 && |b[0].tag| == 17 && |b[1].tag| == 19 && b[0].tag[0] == b[1].tag[0] == 'm';
  }

  lemma SettledApart(env: Env, buyer: Option<string>, seller: Option<string>, status: string, tx: string,
                     amount: Json, price: Json)
    ensures Apart(SettledParty(env, "buyer", buyer, status, tx, amount, price)
                  + SettledParty(env, "seller", seller, status, tx, amount, price))
  {
    var a := SettledParty(env, "buyer", buyer, status, tx, amount, price);
    var b := SettledParty(env, "seller", seller, status, tx, amount, price);
    assert a != [] ==> |a| == 2 && |a[0].tag| == 16 && |a[1].tag| == 21 && a[0].tag[0] == a[1].tag[0] == 's';
    assert b != [] ==> |b| == 2 && |b[0].tag| == 17 && |b[1].tag| == 22 && b[0].tag[0] == b[1].tag[0] == 's';
  }

  predicate Mails(e: Event) {
    e.EmailVerified? || e.ErcIssued? || e.PasswordResetRequested? || e.VerificationEmailRequested?
    || e.WalletLinkRequested? || e.AccountLocked?
  }

  predicate Alerts(e: Event) {
    e.PriceAlertTriggered? || e.UserWalletLinked? || e.UserWalletUnlinked? || e.UserWalletPrimaryChanged?
    || e.OrderUpdate?
  }

  lemma MailApart(env: Env, e: Event)
    requires Mails(e)
    ensures Apart(Plan(env, e))
  {
    assert |Plan(env, e)| <= 1;
  }

  /** A notification in the app and, maybe, its push. */
  ghost predicate Paired(plan: seq<Planned>, tag: string) {
    && |plan| <= 2 && (|plan| > 0 ==> plan[0].tag == tag) && (|plan| > 1 ==> plan[1].tag == tag + ":push")
  }

  lemma PairedApart(plan: seq<Planned>, tag: string)
    requires Paired(plan, tag) && tag != "" && tag[0] != 'k' && tag[0] != 'n'
    ensures Apart(plan)
  {
  }

  lemma LinkedApart(env: Env, e: Event)
    requires e.UserWalletLinked?
    ensures Apart(Plan(env, e))
  {
    PairedApart(Plan(env, e), "wallet_link");
  }

  lemma UnlinkedApart(env: Env, e: Event)
    requires e.UserWalletUnlinked?
    ensures Apart(Plan(env, e))
  {
    PairedApart(Plan(env, e), "wallet_unlink");
  }

  lemma PrimaryApart(env: Env, e: Event)
    requires e.UserWalletPrimaryChanged?
    ensures Apart(Plan(env, e))
  {
    PairedApart(Plan(env, e), "wallet_primary");
  }

  lemma PriceApart(env: Env, e: Event)
    requires e.PriceAlertTriggered?
    ensures Apart(Plan(env, e))
  {
    PairedApart(Plan(env, e), "price_alert");
  }

  lemma UpdateApart(env: Env, e: Event)
    requires e.OrderUpdate?
    ensures Apart(Plan(env, e))
  {
    PairedApart(Plan(env, e), "order_update");
  }

  lemma AlertsApart(env: Env, e: Event)
    requires Alerts(e)
    ensures Apart(Plan(env, e))
  {
    if e.UserWalletLinked? {
      LinkedApart(env, e);
    } else if e.UserWalletUnlinked? {
      UnlinkedApart(env, e);
    } else if e.UserWalletPrimaryChanged? {
      PrimaryApart(env, e);
    } else if e.PriceAlertTriggered? {
      PriceApart(env, e);
    } else {
      UpdateApart(env, e);
    }
  }

  lemma SocketApart(env: Env, e: Event)
    requires !Mails(e) && !Alerts(e) && !e.OrderMatched? && !e.SettlementProcessed?
    ensures Apart(Plan(env, e))
  {
    assert |Plan(env, e)| <= 1;
  }

  lemma ApartIsWellTagged(plan: seq<Planned>)
    requires Apart(plan)
    ensures WellTagged(plan)
  {
    assert Keys.KAFKA[0] == 'k';
  }

  lemma PlansApart(env: Env, e: Event)
    ensures Apart(Plan(env, e))
  {
    match e
    case OrderMatched(buyer, seller, amount, price) => MatchedApart(env, buyer, seller, amount, price);
    case SettlementProcessed(status, tx, buyer, seller, amount, price) =>
      SettledApart(env, buyer, seller, if status == "" then "unknown" else status, tx, amount, price);
    case _ =>
      if Mails(e) {
        MailApart(env, e);
      } else if Alerts(e) {
        AlertsApart(env, e);
      } else {
        SocketApart(env, e);
      }
  }

  lemma PlansWellTagged(env: Env, e: Event)
    ensures WellTagged(Plan(env, e))
  {
    PlansApart(env, e);
    ApartIsWellTagged(Plan(env, e));
  }
}
