/** routes/utils.js: the request checks of the mail and price routes, the
    maintenance-mode switch and its public status, and the coin list with
    live prices. Mail delivery is left to the mailer and is not modelled. */
module UtilRoutes {
  import opened Base
  import opened Accounts
  import opened CryptoPrices
  import Auth

  /** `POST /send-mail`: the e-mail list must be a non-empty array, then
      both subject and message must be truthy. The list's entries are not
      looked at. */
  function ValidateSendMail(emails: Json, subject: Json, message: Json): (r: Response<seq<Json>>)
    ensures r.Ok? <==> emails.Arr? && |emails.items| > 0 && Truthy(subject) && Truthy(message)
    ensures !(emails.Arr? && |emails.items| > 0) ==> r == Fail(400, "A valid array of emails is required")
    ensures emails.Arr? && |emails.items| > 0 && !(Truthy(subject) && Truthy(message)) ==>
              r == Fail(400, "Subject and message are required")
    ensures r.Ok? ==> r.value == emails.items
  {
    if !Truthy(emails) || !emails.Arr? || |emails.items| == 0 then
      Fail(400, "A valid array of emails is required")
    else if !Truthy(subject) || !Truthy(message) then
      Fail(400, "Subject and message are required")
    else
      Ok(emails.items)
  }

  /** The four fields of a contact-us message. */
  datatype ContactMessage = ContactMessage(name: Json, email: Json, subject: Json, message: Json)

  /** `POST /contact-us`: every one of the four fields must be truthy. */
  function ValidateContactUs(m: ContactMessage): (r: Response<ContactMessage>)
    ensures r.Ok? <==> Truthy(m.name) && Truthy(m.email) && Truthy(m.subject) && Truthy(m.message)
    ensures r.Fail? ==> r == Fail(400, "All fields (name, email, subject, message) are required")
    ensures r.Ok? ==> r.value == m
  {
    if !Truthy(m.name) || !Truthy(m.email) || !Truthy(m.subject) || !Truthy(m.message) then
      Fail(400, "All fields (name, email, subject, message) are required")
    else
      Ok(m)
  }

  /** A contact-us message with any field left blank is refused, whatever
      the other fields hold. */
  lemma BlankContactFieldRefused(m: ContactMessage)
    requires m.name == Str("") || m.email == Str("") || m.subject == Str("") || m.message == Str("")
    ensures ValidateContactUs(m) == Fail(400, "All fields (name, email, subject, message) are required")
  {
  }

  /** The strings of a JSON array, when every entry is a string. */
  function Strings(items: seq<Json>): (r: Option<seq<string>>)
    ensures r.Some? <==> forall i :: 0 <= i < |items| ==> items[i].Str?
    ensures r.Some? ==> |r.value| == |items| && forall i :: 0 <= i < |items| ==> r.value[i] == items[i].s
  {
    if |items| == 0 then Some([])
    else
      match Strings(items[1..])
      case None => None
      case Some(rest) =>
        if items[0].Str? then Some([items[0].s] + rest) else None
  }

  /** `POST /crypto-prices`: anything but an array is refused. An array
      holding a non-string makes `fetchCryptoPrices` throw inside its own
      `try`, so the answer is then an empty price map. */
  method CryptoPricesRoute(coinSymbols: Json, fetch: string -> Option<map<string, Quote>>, now: string)
    returns (r: Response<map<string, PriceEntry>>)
    ensures !coinSymbols.Arr? ==> r == Fail(400, "coinSymbols array is required")
    ensures coinSymbols.Arr? ==> r.Ok?
    ensures coinSymbols.Arr? && Strings(coinSymbols.items).Some? ==>
              r == Ok(FetchedPrices(CoinIdMapping, Strings(coinSymbols.items).value, fetch, now))
    ensures coinSymbols.Arr? && Strings(coinSymbols.items).None? ==> r == Ok(map[])
  {
    if !Truthy(coinSymbols) || !coinSymbols.Arr? {
      return Fail(400, "coinSymbols array is required");
    }
    var symbols := Strings(coinSymbols.items);
    if symbols.None? {
      return Ok(map[]);
    }
    var prices := FetchCryptoPrices(CoinIdMapping, symbols.value, fetch, now);
    r := Ok(prices);
  }

  /** The `maintenanceMode` sub-document; any field may be missing. */
  datatype MaintenanceMode = MaintenanceMode(enabled: Option<bool>, message: Option<string>, updatedAt: Option<string>)

  /** The util document: its coins, its maintenance mode, and every other
      field (default rankings, wire-transfer details) left as it is. */
  datatype UtilDoc = UtilDoc(coins: seq<Coin>, maintenanceMode: MaintenanceMode, rest: map<string, Json>)

  /** The new maintenance mode: `enabled` is kept when the request leaves it
      out, `message` is kept when the request's is falsy, and `updatedAt` is
      the time of the request. */
  function MergedMaintenance(prev: MaintenanceMode, enabled: Option<bool>, message: Option<string>, now: string)
    : (m: MaintenanceMode)
    ensures m.enabled == (if enabled.Some? then enabled else prev.enabled)
    ensures m.message == (if Present(message) then message else prev.message)
    ensures m.updatedAt == Some(now)
  {
    MaintenanceMode(if enabled.Some? then enabled else prev.enabled,
                    if Present(message) then message else prev.message,
                    Some(now))
  }

  /** Sending the same switch request twice changes nothing the second
      time. */
  lemma MergeIdempotent(prev: MaintenanceMode, enabled: Option<bool>, message: Option<string>, now: string)
    ensures var once := MergedMaintenance(prev, enabled, message, now);
            MergedMaintenance(once, enabled, message, now) == once
  {
  }

  /** The reply's wording as written: "enabled" exactly when the request's
      `enabled` is truthy. */
  function ToggleReply(enabled: Option<bool>): (s: string)
    ensures s == "Maintenance mode enabled" <==> enabled == Some(true)
    ensures s == "Maintenance mode disabled" <==> enabled != Some(true)
  {
    "Maintenance mode " + (if enabled == Some(true) then "enabled" else "disabled")
  }

  /** The reply's wording stating the mode as stored. */
  function StateReply(m: MaintenanceMode): (s: string)
    ensures s == "Maintenance mode enabled" <==> m.enabled == Some(true)
    ensures s == "Maintenance mode disabled" <==> m.enabled != Some(true)
  {
    "Maintenance mode " + (if m.enabled == Some(true) then "enabled" else "disabled")
  }

  /** A request that leaves `enabled` out while maintenance is on is
      answered "Maintenance mode disabled", yet maintenance stays on. */
  lemma ReplyCanContradictState(prev: MaintenanceMode, message: Option<string>, now: string)
    requires prev.enabled == Some(true)
    ensures MergedMaintenance(prev, None, message, now).enabled == Some(true)
    ensures ToggleReply(None) == "Maintenance mode disabled"
  {
  }

  /** The reply stating the stored mode always agrees with it, and it says
      the same as the written reply whenever the request names `enabled`. */
  lemma StateReplyAgrees(prev: MaintenanceMode, enabled: Option<bool>, message: Option<string>, now: string)
    ensures var m := MergedMaintenance(prev, enabled, message, now);
            StateReply(m) == "Maintenance mode enabled" <==> m.enabled == Some(true)
    ensures enabled.Some? ==> StateReply(MergedMaintenance(prev, enabled, message, now)) == ToggleReply(enabled)
  {
  }

  /** `{ message, maintenanceMode }` of the switch's reply. */
  datatype MaintenanceReply = MaintenanceReply(message: string, mode: MaintenanceMode)

  /** `{ enabled, message }` of the public status. */
  datatype Status = Status(enabled: bool, message: string)

  const OperationalMessage: string := "System is operational"

  /** `GET /maintenance-status`: the stored switch (`false` when missing)
      and message (the operational message when missing or empty); the
      operational defaults when there is no util document or the lookup
      throws. */
  function MaintenanceStatus(util: Option<UtilDoc>, lookupFailed: bool): (s: Status)
    ensures lookupFailed || util.None? ==> s == Status(false, OperationalMessage)
    ensures s.enabled <==> !lookupFailed && util.Some? && util.value.maintenanceMode.enabled == Some(true)
    ensures s.message != ""
    ensures s.message != OperationalMessage ==>
              !lookupFailed && util.Some? && util.value.maintenanceMode.message == Some(s.message)
  {
    if lookupFailed || util.None? then Status(false, OperationalMessage)
    else
      var m := util.value.maintenanceMode;
      Status(m.enabled == Some(true), if Present(m.message) then m.message.value else OperationalMessage)
  }

  /** After a switch that names both the flag and a message, the public
      status reports exactly those. */
  lemma StatusAfterSwitch(d: UtilDoc, enabled: bool, message: string, now: string)
    requires message != ""
    ensures var mode := MergedMaintenance(d.maintenanceMode, Some(enabled), Some(message), now);
            MaintenanceStatus(Some(d.(maintenanceMode := mode)), false) == Status(enabled, message)
  {
  }

  /** A switch that leaves `enabled` out does not change whether the status
      reports maintenance. */
  lemma MessageOnlySwitchKeepsFlag(d: UtilDoc, message: Option<string>, now: string)
    ensures var mode := MergedMaintenance(d.maintenanceMode, None, message, now);
            MaintenanceStatus(Some(d.(maintenanceMode := mode)), false).enabled
            == MaintenanceStatus(Some(d), false).enabled
  {
  }

  /** `PUT /maintenance-mode` as written: the util document (if any) and
      the reply, for any sender at all. */
  function MaintenanceUpdate(util: Option<UtilDoc>, enabled: Option<bool>, message: Option<string>, now: string)
    : (out: (Option<UtilDoc>, Response<MaintenanceReply>))
    ensures util.None? ==> out == (None, Fail(404, "Utils not found"))
    ensures util.Some? ==>
              var mode := MergedMaintenance(util.value.maintenanceMode, enabled, message, now);
              out == (Some(util.value.(maintenanceMode := mode)), Ok(MaintenanceReply(ToggleReply(enabled), mode)))
  {
    if util.None? then (None, Fail(404, "Utils not found"))
    else
      var mode := MergedMaintenance(util.value.maintenanceMode, enabled, message, now);
      (Some(util.value.(maintenanceMode := mode)), Ok(MaintenanceReply(ToggleReply(enabled), mode)))
  }

  /** The switch as written carries no sender at all: a request with no
      token turns maintenance on for everyone. */
  lemma AnonymousSwitchTakesEffect(d: UtilDoc, now: string)
    ensures var (after, reply) := MaintenanceUpdate(Some(d), Some(true), None, now);
            reply.Ok? && MaintenanceStatus(after, false).enabled
  {
  }

  /** The switch behind the admin check its comment announces, with the
      reply stating the stored mode. */
  function AdminMaintenanceUpdate(caller: User, util: Option<UtilDoc>, enabled: Option<bool>,
                                  message: Option<string>, now: string)
    : (out: (Option<UtilDoc>, Response<MaintenanceReply>))
    ensures !caller.isAdmin ==> out == (util, Fail(403, "Access denied. Admins only."))
    ensures caller.isAdmin ==> out.0 == MaintenanceUpdate(util, enabled, message, now).0
    ensures caller.isAdmin && util.Some? ==>
              out.1 == Ok(MaintenanceReply(StateReply(out.0.value.maintenanceMode), out.0.value.maintenanceMode))
  {
    var gate := Auth.RequireAdmin(Some(caller));
    if gate.Deny? then (util, Fail(gate.status, gate.message))
    else
      var (after, reply) := MaintenanceUpdate(util, enabled, message, now);
      if reply.Ok? then (after, Ok(MaintenanceReply(StateReply(reply.value.mode), reply.value.mode)))
      else (after, reply)
  }

  /** Behind the admin check, no one but an admin can change the public
      status. */
  lemma NonAdminCannotSwitch(caller: User, util: Option<UtilDoc>, enabled: Option<bool>,
                             message: Option<string>, now: string)
    requires !caller.isAdmin
    ensures var (after, _) := AdminMaintenanceUpdate(caller, util, enabled, message, now);
            after == util && MaintenanceStatus(after, false) == MaintenanceStatus(util, false)
  {
  }

  /** The store holding the (single) util document. */
  class UtilStore {
    var util: Option<UtilDoc>

    constructor (util: Option<UtilDoc>)
      ensures this.util == util
    {
      this.util := util;
    }

    /** `PUT /maintenance-mode` as written: only `maintenanceMode` changes,
        and no sender is checked. */
    method SetMaintenanceMode(enabled: Option<bool>, message: Option<string>, now: string)
      returns (r: Response<MaintenanceReply>)
      modifies this
      ensures (util, r) == MaintenanceUpdate(old(util), enabled, message, now)
      ensures old(util).None? ==> r == Fail(404, "Utils not found") && util == old(util)
      ensures old(util).Some? ==> util.Some? && util.value.coins == old(util).value.coins
                                  && util.value.rest == old(util).value.rest
    {
      if util.None? {
        return Fail(404, "Utils not found");
      }
      var d := util.value;
      var mode := MergedMaintenance(d.maintenanceMode, enabled, message, now);
      util := Some(d.(maintenanceMode := mode));
      r := Ok(MaintenanceReply(ToggleReply(enabled), mode));
    }

    /** The switch behind the admin check, replying with the stored mode. */
    method SetMaintenanceModeAsAdmin(caller: User, enabled: Option<bool>, message: Option<string>, now: string)
      returns (r: Response<MaintenanceReply>)
      modifies this
      ensures (util, r) == AdminMaintenanceUpdate(caller, old(util), enabled, message, now)
      ensures !caller.isAdmin ==> util == old(util)
    {
      var gate := Auth.RequireAdmin(Some(caller));
      if gate.Deny? {
        return Fail(gate.status, gate.message);
      }
      r := SetMaintenanceMode(enabled, message, now);
      if r.Ok? {
        r := Ok(MaintenanceReply(StateReply(r.value.mode), r.value.mode));
      }
    }

    /** `GET /maintenance-status`; `lookupFailed` is a throwing lookup. */
    method GetMaintenanceStatus(lookupFailed: bool) returns (s: Status)
      ensures s == MaintenanceStatus(util, lookupFailed)
    {
      if lookupFailed || util.None? {
        return Status(false, OperationalMessage);
      }
      var m := util.value.maintenanceMode;
      var enabled := m.enabled == Some(true);
      var text := if Present(m.message) then m.message.value else OperationalMessage;
      s := Status(enabled, text);
    }

    /** `GET /coins-with-prices`: an empty list when there is no util
        document or it has no coins, else every coin with its live or
        fallback price, in order. */
    method CoinsWithPrices(fetch: string -> Option<map<string, Quote>>, now: string) returns (coins: seq<Coin>)
      ensures util.None? || |util.value.coins| == 0 ==> coins == []
      ensures util.Some? ==> |coins| == |util.value.coins|
      ensures util.Some? ==> forall i :: 0 <= i < |coins| ==>
                coins[i].name == util.value.coins[i].name
                && (coins[i].priceSource == Some("api") || coins[i] == WithFallbackPrice(util.value.coins[i], now))
      ensures util.Some? && (exists i :: 0 <= i < |util.value.coins| && SymbolOf(util.value.coins[i]).None?) ==>
                forall i :: 0 <= i < |coins| ==> coins[i] == WithFallbackPrice(util.value.coins[i], now)
      ensures util.Some? && (forall i :: 0 <= i < |util.value.coins| ==> SymbolOf(util.value.coins[i]).Some?) ==>
                var prices := FetchedPrices(CoinIdMapping, ApiSymbols(util.value.coins), fetch, now);
                forall i :: 0 <= i < |coins| ==> coins[i] == PriceCoin(util.value.coins[i], prices, now)
    {
      if util.None? || |util.value.coins| == 0 {
        return [];
      }
      var stored := util.value.coins;
      coins := UpdateCoinPricesFromApi(stored, fetch, now);
      if exists i :: 0 <= i < |stored| && SymbolOf(stored[i]).None? {
      } else {
        var prices := FetchedPrices(CoinIdMapping, ApiSymbols(stored), fetch, now);
        assert forall i :: 0 <= i < |coins| ==> coins[i] == PriceCoin(stored[i], prices, now);
      }
    }
  }
}
