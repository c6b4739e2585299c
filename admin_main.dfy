/**
 * The admin backend's own routes: the app-client table (the default client written at
 * startup, creation, activation and deactivation, the listing), the health page of the
 * platform services, and the merge of the services' OpenAPI documents.  DynamoDB,
 * Cognito, Secrets Manager and the HTTP client are parameters: the items a scan
 * returns, the outcome of each call.
 */
module AdminMain {
  import Text
  import opened Wrappers
  import opened JsonData
  import MR = MetricRoutes

  // ---------------------------------------------------------------------
  // The app-client table.
  // ---------------------------------------------------------------------

  /**
   * A scanned DynamoDB item: each attribute's string (S) value, None when the item lacks
   * the attribute (`item.get(attr, {}).get("S")`).
   */
  datatype Item = Item(
    appId: Option<string>, clientId: Option<string>, status: Option<string>, appName: Option<string>,
    secretArn: Option<string>, description: Option<string>, dateCreated: Option<string>)

  /** The item add_app_client_to_dynamodb writes: a new app id, the client, status active. */
  function NewClientItem(appId: string, clientId: string, appName: string, secretArn: string, description: string, dateCreated: string): Item
  {
    Item(Some(appId), Some(clientId), Some("active"), Some(appName), Some(secretArn), Some(description), Some(dateCreated))
  }

  /** Some item of the table holds the client id c. */
  predicate HasClient(items: seq<Item>, c: string)
  {
    exists i :: 0 <= i < |items| && items[i].clientId == Some(c)
  }

  /** Some item of the table has app id a: the condition `attribute_exists(app_id)` on key a. */
  predicate HasAppId(items: seq<Item>, a: string)
  {
    exists i :: 0 <= i < |items| && items[i].appId == Some(a)
  }

  const DefaultAppName: string := "AdminUIBackend"
  const DefaultDescription: string := "Backend for Admin UI"

  /**
   * The table after add_default_app_client_if_not_exists(c): unchanged when some item
   * already holds c, else one more item for c with an empty secret ARN.
   */
  function WithDefaultClient(items: seq<Item>, c: string, appId: string, now: string): (r: seq<Item>)
    ensures HasClient(r, c)
    ensures HasClient(items, c) ==> r == items
    ensures !HasClient(items, c) ==> |r| == |items| + 1 && r[..|items|] == items
    ensures !HasClient(items, c) ==> r[|items|].status == Some("active") && r[|items|].secretArn == Some("")
  {
    if HasClient(items, c) then items
    else
      var r := items + [NewClientItem(appId, c, DefaultAppName, "", DefaultDescription, now)];
      assert r[|items|].clientId == Some(c);
      r
  }

  /** Writing the default client a second time changes nothing, whatever app id and time it would use. */
  lemma DefaultClientIdempotent(items: seq<Item>, c: string, a1: string, n1: string, a2: string, n2: string)
    ensures WithDefaultClient(WithDefaultClient(items, c, a1, n1), c, a2, n2) == WithDefaultClient(items, c, a1, n1)
  {
  }

  /**
   * The items with app id a have their status set to s; the others are unchanged. This
   * is the conditional update_item of activate and deactivate.
   */
  function StatusSet(items: seq<Item>, a: string, s: string): (r: seq<Item>)
    ensures |r| == |items|
    ensures forall i :: 0 <= i < |items| && items[i].appId == Some(a) ==> r[i] == items[i].(status := Some(s))
    ensures forall i :: 0 <= i < |items| && items[i].appId != Some(a) ==> r[i] == items[i]
  {
    if items == [] then []
    else
      var head := if items[0].appId == Some(a) then items[0].(status := Some(s)) else items[0];
      [head] + StatusSet(items[1..], a, s)
  }

  /** Only the last status write to an app id counts: deactivating then activating is activating. */
  lemma {:induction false} LastStatusWins(items: seq<Item>, a: string, s1: string, s2: string)
    ensures StatusSet(StatusSet(items, a, s1), a, s2) == StatusSet(items, a, s2)
  {
    var once := StatusSet(items, a, s1);
    var twice := StatusSet(once, a, s2);
    forall i | 0 <= i < |items|
      ensures twice[i] == StatusSet(items, a, s2)[i]
    {
      if items[i].appId == Some(a) {
        assert once[i].appId == Some(a);
      }
    }
  }

  /** The outcome of a client-secret creation: the response's ARN, or None when the response has none. */
  datatype SecretOutcome = SecretCreated(arn: Option<string>) | SecretRaised(error: string)

  /** The secret_arn recorded for a new client: the ARN, or "failed" when the response has no ARN. */
  function SecretArn(arn: Option<string>): (r: string)
    ensures arn.None? ==> r == "failed"
    ensures arn.Some? ==> r == arn.value
  {
    if arn.Some? then arn.value else "failed"
  }

  /** Python's `not v or v.strip() == ""` for an optional text field. */
  predicate Blank(v: Option<string>)
  {
    v.None? || v.value == "" || Text.Strip(v.value) == ""
  }

  /** The request checks of create_app_client: app_name first, then description. */
  function ValidateAppClient(appName: Option<string>, description: Option<string>): (r: Option<HttpError>)
    ensures r.None? <==> !Blank(appName) && !Blank(description)
    ensures Blank(appName) ==> r == Some(HttpError(400, "app_name is required"))
    ensures !Blank(appName) && Blank(description) ==> r == Some(HttpError(400, "description is required"))
  {
    if Blank(appName) then Some(HttpError(400, "app_name is required"))
    else if Blank(description) then Some(HttpError(400, "description is required"))
    else None
  }

  /** A name made only of whitespace is refused like a missing one. */
  lemma WhitespaceNameRefused(name: string, description: Option<string>)
    requires forall i :: 0 <= i < |name| ==> Text.IsSpace(name[i])
    ensures ValidateAppClient(Some(name), description) == Some(HttpError(400, "app_name is required"))
  {
  }

  /** Non-ASCII and control whitespace count too: a no-break space or a file separator alone is refused. */
  lemma UnicodeSpaceNameRefused(description: Option<string>)
    ensures ValidateAppClient(Some("\U{00A0}"), description) == Some(HttpError(400, "app_name is required"))
    ensures ValidateAppClient(Some("\U{001C}\U{3000}"), description) == Some(HttpError(400, "app_name is required"))
  {
    WhitespaceNameRefused("\U{00A0}", description);
    WhitespaceNameRefused("\U{001C}\U{3000}", description);
  }

  /** The answer of create_app_client. */
  datatype CreatedClient = CreatedClient(clientId: string, secretArn: string, status: string)

  /** The answer of get_all_app_clients for one item. */
  datatype ClientView = ClientView(
    appId: Option<string>, clientId: Option<string>, appName: Option<string>, secretArn: Option<string>,
    description: Option<string>, dateCreated: string, status: Option<string>,
    appUserPoolId: string, platformAppClientId: string, platformDomain: string)

  /** The configuration values get_all_app_clients copies into every entry. */
  datatype ClientConf = ClientConf(appUserPoolId: string, platformAppClientId: string, platformDomain: string)

  /** The clock text `%H:%M:%S`. */
  function Clock(h: nat, mi: nat, s: nat): string
  {
    MR.Pad(h, 2) + ":" + MR.Pad(mi, 2) + ":" + MR.Pad(s, 2)
  }

  /** A part of one or two decimal digits. */
  predicate ShortNumeral(p: string)
  {
    1 <= |p| <= 2 && MR.IsDigits(p)
  }

  /**
   * strptime with `%H:%M:%S.%f`: hour 0..23, minute 0..59, second 0..61 in one or two
   * digits, one to six digits of fraction; datetime then refuses a second above 59.
   */
  function ParseClock(t: string): (r: Option<(nat, nat, nat)>)
    ensures r.Some? ==> r.value.0 < 24 && r.value.1 < 60 && r.value.2 < 60
  {
    var parts := Text.Split(t, ':');
    if |parts| != 3 then None
    else
      var sec := Text.Split(parts[2], '.');
      if !ShortNumeral(parts[0]) || !ShortNumeral(parts[1]) || |sec| != 2 || !ShortNumeral(sec[0])
         || !(1 <= |sec[1]| <= 6) || !MR.IsDigits(sec[1])
      then None
      else
        var h, mi, s := Text.DecimalValue(parts[0]), Text.DecimalValue(parts[1]), Text.DecimalValue(sec[0]);
        if h > 23 || mi > 59 || s > 59 then None else Some((h, mi, s))
  }

  /**
   * The date_created reformatting of get_all_app_clients: parsed with
   * `%Y-%m-%d %H:%M:%S.%f` and written back with `%Y-%m-%d %H:%M:%S`; None is the
   * exception that makes the route skip the item.
   */
  function FormatDateCreated(s: string): (r: Option<string>)
    ensures r.Some? ==> |r.value| >= 19 && '.' !in r.value
  {
    var halves := Text.Split(s, ' ');
    if |halves| != 2 then None
    else
      match MR.ParseYmd(halves[0])
      case Err(_) => None
      case Ok(ymd) =>
        match ParseClock(halves[1])
        case None => None
        case Some(hms) =>
          StampLacksFraction(ymd.0, ymd.1, ymd.2, hms.0, hms.1, hms.2);
          Some(MR.DateText(ymd.0, ymd.1, ymd.2) + " " + Clock(hms.0, hms.1, hms.2))
  }

  /** A date and clock text written without microseconds is at least 19 characters long and holds no '.'. */
  lemma StampLacksFraction(y: nat, m: nat, d: nat, h: nat, mi: nat, s: nat)
    ensures var t := MR.DateText(y, m, d) + " " + Clock(h, mi, s); |t| >= 19 && '.' !in t
  {
    DigitsLack(MR.Pad(y, 4), '.');
    DigitsLack(MR.Pad(m, 2), '.');
    DigitsLack(MR.Pad(d, 2), '.');
    DigitsLack(MR.Pad(h, 2), '.');
    DigitsLack(MR.Pad(mi, 2), '.');
    DigitsLack(MR.Pad(s, 2), '.');
  }

  /** A text of digits holds no character other than digits. */
  lemma DigitsLack(p: string, c: char)
    requires MR.IsDigits(p) && !('0' <= c <= '9')
    ensures c !in p
  {
  }

  /** The parts of a clock text with a fraction. */
  lemma ClockParts(h: nat, mi: nat, s: nat, f: string)
    requires h < 100 && mi < 100 && s < 100 && MR.IsDigits(f)
    ensures Text.Split(Clock(h, mi, s) + "." + f, ':') == [MR.Pad(h, 2), MR.Pad(mi, 2), MR.Pad(s, 2) + "." + f]
    ensures Text.Split(MR.Pad(s, 2) + "." + f, '.') == [MR.Pad(s, 2), f]
  {
    var ph, pm, ps := MR.Pad(h, 2), MR.Pad(mi, 2), MR.Pad(s, 2);
    var tail := ps + "." + f;
    DigitsLack(ph, ':');
    DigitsLack(pm, ':');
    DigitsLack(ps, ':');
    DigitsLack(f, ':');
    DigitsLack(ps, '.');
    DigitsLack(f, '.');
    assert ':' !in tail;
    assert Clock(h, mi, s) + "." + f == ph + [':'] + (pm + [':'] + tail);
    Text.SplitPrefix(ph, pm + [':'] + tail, ':');
    Text.SplitPrefix(pm, tail, ':');
    Text.SplitNoSep(tail, ':');
    assert tail == ps + ['.'] + f;
    Text.SplitPrefix(ps, f, '.');
    Text.SplitNoSep(f, '.');
  }

  /** The parts of a `str(datetime)` text with non-zero microseconds, split at its one space. */
  lemma StampHalves(y: nat, m: nat, d: nat, rest: string)
    requires MR.ValidDate(y, m, d) && ' ' !in rest
    ensures Text.Split(MR.DateText(y, m, d) + " " + rest, ' ') == [MR.DateText(y, m, d), rest]
  {
    var dt := MR.DateText(y, m, d);
    DigitsLack(MR.Pad(y, 4), ' ');
    DigitsLack(MR.Pad(m, 2), ' ');
    DigitsLack(MR.Pad(d, 2), ' ');
    assert ' ' !in dt;
    assert dt + " " + rest == dt + [' '] + rest;
    Text.SplitPrefix(dt, rest, ' ');
    Text.SplitNoSep(rest, ' ');
  }

  /** A clock with a one- to six-digit fraction parses back to its hour, minute and second. */
  lemma ParseClockText(h: nat, mi: nat, s: nat, f: string)
    requires h < 24 && mi < 60 && s < 60 && MR.IsDigits(f) && 1 <= |f| <= 6
    ensures ParseClock(Clock(h, mi, s) + "." + f) == Some((h, mi, s))
  {
    assert MR.Pow10(2) == 100;
    MR.PadLength(h, 2);
    MR.PadLength(mi, 2);
    MR.PadLength(s, 2);
    MR.PadValue(h, 2);
    MR.PadValue(mi, 2);
    MR.PadValue(s, 2);
    ClockParts(h, mi, s, f);
  }

  /**
   * What `str(datetime.now())` writes when the microseconds are not 0 reads back as the
   * same date and time without its microseconds.
   */
  lemma FormatDropsMicroseconds(y: nat, m: nat, d: nat, h: nat, mi: nat, s: nat, us: nat)
    requires MR.ValidDate(y, m, d) && h < 24 && mi < 60 && s < 60 && 0 < us < 1000000
    ensures FormatDateCreated(MR.DateText(y, m, d) + " " + Clock(h, mi, s) + "." + MR.Pad(us, 6))
      == Some(MR.DateText(y, m, d) + " " + Clock(h, mi, s))
  {
    var f := MR.Pad(us, 6);
    assert MR.Pow10(6) == 1000000 by {
      assert MR.Pow10(2) == 100;
    }
    MR.PadLength(us, 6);
    var rest := Clock(h, mi, s) + "." + f;
    ParseClockText(h, mi, s, f);
    DigitsLack(MR.Pad(h, 2), ' ');
    DigitsLack(MR.Pad(mi, 2), ' ');
    DigitsLack(MR.Pad(s, 2), ' ');
    DigitsLack(f, ' ');
    assert ' ' !in rest;
    StampHalves(y, m, d, rest);
    assert MR.DateText(y, m, d) + " " + Clock(h, mi, s) + "." + f == MR.DateText(y, m, d) + " " + rest;
    MR.ParseDateText(y, m, d);
  }

  /**
   * `str(datetime.now())` leaves the fraction out when the microseconds are 0; such an
   * item does not match `%S.%f` and is left out of the listing.
   */
  lemma WholeSecondIsSkipped(y: nat, m: nat, d: nat, h: nat, mi: nat, s: nat)
    requires MR.ValidDate(y, m, d) && h < 24 && mi < 60 && s < 60
    ensures FormatDateCreated(MR.DateText(y, m, d) + " " + Clock(h, mi, s)).None?
  {
    var c := Clock(h, mi, s);
    ClockLacksSpace(h, mi, s);
    StampHalves(y, m, d, c);
    ClockWithoutFraction(h, mi, s);
  }

  /** A clock text holds no space. */
  lemma ClockLacksSpace(h: nat, mi: nat, s: nat)
    requires h < 100 && mi < 100 && s < 100
    ensures ' ' !in Clock(h, mi, s)
  {
    DigitsLack(MR.Pad(h, 2), ' ');
    DigitsLack(MR.Pad(mi, 2), ' ');
    DigitsLack(MR.Pad(s, 2), ' ');
  }

  /** A clock text without a fraction does not parse. */
  lemma ClockWithoutFraction(h: nat, mi: nat, s: nat)
    requires h < 100 && mi < 100 && s < 100
    ensures ParseClock(Clock(h, mi, s)).None?
  {
    assert MR.Pow10(2) == 100;
    MR.PadLength(s, 2);
    DigitsLack(MR.Pad(h, 2), ':');
    DigitsLack(MR.Pad(mi, 2), ':');
    DigitsLack(MR.Pad(s, 2), ':');
    DigitsLack(MR.Pad(s, 2), '.');
    var c := Clock(h, mi, s);
    assert c == MR.Pad(h, 2) + [':'] + (MR.Pad(mi, 2) + [':'] + MR.Pad(s, 2));
    Text.SplitPrefix(MR.Pad(h, 2), MR.Pad(mi, 2) + [':'] + MR.Pad(s, 2), ':');
    Text.SplitPrefix(MR.Pad(mi, 2), MR.Pad(s, 2), ':');
    Text.SplitNoSep(MR.Pad(s, 2), ':');
    Text.SplitNoSep(MR.Pad(s, 2), '.');
  }

  /** The entry of one scanned item, or None when its date_created does not format. */
  function ViewOf(item: Item, conf: ClientConf): (r: Option<ClientView>)
    ensures r.Some? <==> item.dateCreated.Some? && FormatDateCreated(item.dateCreated.value).Some?
    ensures r.Some? ==> r.value.clientId == item.clientId && r.value.status == item.status
    ensures r.Some? ==> Some(r.value.dateCreated) == FormatDateCreated(item.dateCreated.value)
  {
    match item.dateCreated
    case None => None
    case Some(raw) =>
      match FormatDateCreated(raw)
      case None => None
      case Some(dc) =>
        Some(ClientView(item.appId, item.clientId, item.appName, item.secretArn,
          item.description, dc, item.status, conf.appUserPoolId, conf.platformAppClientId, conf.platformDomain))
  }

  /** The values of the Some entries, in order. */
  function Somes<T>(xs: seq<Option<T>>): (r: seq<T>)
    ensures |r| <= |xs|
  {
    if xs == [] then []
    else
      var rest := Somes(xs[..|xs| - 1]);
      if xs[|xs| - 1].Some? then rest + [xs[|xs| - 1].value] else rest
  }

  /** Somes keeps every Some value and invents none. */
  lemma {:induction false} SomesMembers<T>(xs: seq<Option<T>>)
    ensures forall v :: v in Somes(xs) ==> Some(v) in xs
    ensures forall i :: 0 <= i < |xs| && xs[i].Some? ==> xs[i].value in Somes(xs)
  {
    if xs != [] {
      var init := xs[..|xs| - 1];
      SomesMembers(init);
      assert forall i :: 0 <= i < |init| ==> init[i] == xs[i];
    }
  }

  /** The entry of each scanned item, in scan order. */
  function Entries(items: seq<Item>, conf: ClientConf): (r: seq<Option<ClientView>>)
    ensures |r| == |items| && forall i :: 0 <= i < |items| ==> r[i] == ViewOf(items[i], conf)
  {
    if items == [] then [] else Entries(items[..|items| - 1], conf) + [ViewOf(items[|items| - 1], conf)]
  }

  /** The listing: one entry per item whose date formats, in scan order. */
  function Views(items: seq<Item>, conf: ClientConf): seq<ClientView>
  {
    Somes(Entries(items, conf))
  }

  /**
   * Every entry of the listing is the entry of some item, every item whose date formats
   * has its entry listed, and the listing is no longer than the scan.
   */
  lemma ListingMembers(items: seq<Item>, conf: ClientConf)
    ensures |Views(items, conf)| <= |items|
    ensures forall v :: v in Views(items, conf) ==> exists i :: 0 <= i < |items| && ViewOf(items[i], conf) == Some(v)
    ensures forall i :: 0 <= i < |items| && ViewOf(items[i], conf).Some? ==> ViewOf(items[i], conf).value in Views(items, conf)
  {
    var es := Entries(items, conf);
    SomesMembers(es);
    forall v | v in Views(items, conf)
      ensures exists i :: 0 <= i < |items| && ViewOf(items[i], conf) == Some(v)
    {
      var i :| 0 <= i < |es| && es[i] == Some(v);
    }
  }

  /** The 500 of an update without an app id: boto3 refuses the None key. */
  const MissingAppId: HttpError := HttpError(500, "An error occurred: Parameter validation failed: Invalid type for parameter Key.app_id.S")

  /** The 500 of an update whose app id no item has: the condition attribute_exists(app_id) fails. */
  const ConditionFailed: HttpError :=
    HttpError(500, "An error occurred: An error occurred (ConditionalCheckFailedException) when calling the UpdateItem operation: The conditional request failed")

  /** The app-client table, in scan order. */
  class AppClientTable {
    var items: seq<Item>

    constructor(items0: seq<Item>)
      ensures items == items0
    {
      items := items0;
    }

    /** add_app_client_to_dynamodb: one more active item for the client. */
    method AddAppClient(appId: string, clientId: string, appName: string, secretArn: string, description: string, now: string)
      returns (clientIdOut: string, secretArnOut: string)
      modifies this
      ensures items == old(items) + [NewClientItem(appId, clientId, appName, secretArn, description, now)]
      ensures clientIdOut == clientId && secretArnOut == secretArn
    {
      items := items + [NewClientItem(appId, clientId, appName, secretArn, description, now)];
      clientIdOut, secretArnOut := clientId, secretArn;
    }

    /** add_default_app_client_if_not_exists: scan for the client id, write it when absent. */
    method AddDefaultIfNotExists(c: string, appId: string, now: string)
      modifies this
      ensures items == WithDefaultClient(old(items), c, appId, now)
    {
      var scanned := items;
      var i := 0;
      while i < |scanned|
        invariant 0 <= i <= |scanned| && items == scanned
        invariant forall k :: 0 <= k < i ==> scanned[k].clientId != Some(c)
      {
        if scanned[i].clientId == Some(c) {
          return;
        }
        i := i + 1;
      }
      var _, _ := AddAppClient(appId, c, DefaultAppName, "", DefaultDescription, now);
    }

    /**
     * create_app_client: the checks, the Cognito client, its secret, then the item. A
     * failing Cognito call or secret creation is 500 and writes nothing.
     */
    method CreateAppClient(appName: Option<string>, description: Option<string>,
                           cognito: Result<(string, string), string>, secret: SecretOutcome,
                           appId: string, now: string)
      returns (r: Result<CreatedClient, HttpError>)
      modifies this
      ensures ValidateAppClient(appName, description).Some? ==>
        r == Err(ValidateAppClient(appName, description).value) && items == old(items)
      ensures ValidateAppClient(appName, description).None? && cognito.Err? ==>
        r == Err(HttpError(500, "An error occurred: " + cognito.error)) && items == old(items)
      ensures ValidateAppClient(appName, description).None? && cognito.Ok? && secret.SecretRaised? ==>
        r == Err(HttpError(500, "An error occurred: " + secret.error)) && items == old(items)
      ensures ValidateAppClient(appName, description).None? && cognito.Ok? && secret.SecretCreated? ==>
        r == Ok(CreatedClient(cognito.value.0, SecretArn(secret.arn), "active")) &&
        items == old(items) + [NewClientItem(appId, cognito.value.0, appName.value, SecretArn(secret.arn), description.value, now)]
    {
      var invalid := ValidateAppClient(appName, description);
      if invalid.Some? {
        return Err(invalid.value);
      }
      if cognito.Err? {
        return Err(HttpError(500, "An error occurred: " + cognito.error));
      }
      var clientId := cognito.value.0;
      if secret.SecretRaised? {
        return Err(HttpError(500, "An error occurred: " + secret.error));
      }
      var secretArn := SecretArn(secret.arn);
      var _, _ := AddAppClient(appId, clientId, appName.value, secretArn, description.value, now);
      return Ok(CreatedClient(clientId, secretArn, "active"));
    }

    /**
     * The conditional update of activate and deactivate: the status of app id a becomes s
     * when some item has that app id; otherwise, or without an app id, 500 and nothing changes.
     */
    method SetStatus(appId: Option<string>, s: string, message: string) returns (r: Result<string, HttpError>)
      modifies this
      ensures appId.Some? && HasAppId(old(items), appId.value) ==> r == Ok(message) && items == StatusSet(old(items), appId.value, s)
      ensures !(appId.Some? && HasAppId(old(items), appId.value)) ==> r.Err? && r.error.status == 500 && items == old(items)
    {
      if appId.None? {
        return Err(MissingAppId);
      }
      var a := appId.value;
      var i := 0;
      var found := false;
      while i < |items|
        invariant 0 <= i <= |items|
        invariant found <==> exists k :: 0 <= k < i && items[k].appId == Some(a)
      {
        if items[i].appId == Some(a) {
          found := true;
        }
        i := i + 1;
      }
      if !found {
        return Err(ConditionFailed);
      }
      items := StatusSet(items, a, s);
      return Ok(message);
    }

    /** deactivate_app_client. */
    method Deactivate(appId: Option<string>) returns (r: Result<string, HttpError>)
      modifies this
      ensures appId.Some? && HasAppId(old(items), appId.value) ==>
        r == Ok("Client deactivated successfully") && items == StatusSet(old(items), appId.value, "inactive")
      ensures !(appId.Some? && HasAppId(old(items), appId.value)) ==> r.Err? && r.error.status == 500 && items == old(items)
    {
      r := SetStatus(appId, "inactive", "Client deactivated successfully");
    }

    /** activate_app_client. */
    method Activate(appId: Option<string>) returns (r: Result<string, HttpError>)
      modifies this
      ensures appId.Some? && HasAppId(old(items), appId.value) ==>
        r == Ok("Client activated successfully") && items == StatusSet(old(items), appId.value, "active")
      ensures !(appId.Some? && HasAppId(old(items), appId.value)) ==> r.Err? && r.error.status == 500 && items == old(items)
    {
      r := SetStatus(appId, "active", "Client activated successfully");
    }

    /** get_all_app_clients: one entry per item, skipping those whose date does not format. */
    method GetAllAppClients(conf: ClientConf) returns (clients: seq<ClientView>)
      ensures clients == Views(items, conf)
    {
      clients := [];
      var i := 0;
      while i < |items|
        invariant 0 <= i <= |items|
        invariant clients == Views(items[..i], conf)
      {
        assert items[..i + 1][..i] == items[..i];
        assert Entries(items[..i + 1], conf)[..i] == Entries(items[..i], conf);
        var v := ViewOf(items[i], conf);
        if v.Some? {
          clients := clients + [v.value];
        }
        i := i + 1;
      }
      assert items[..|items|] == items;
    }
  }

  // ---------------------------------------------------------------------
  // services_health
  // ---------------------------------------------------------------------

  /** One entry of PLARFORM_SERVICES. */
  datatype ServiceConf = ServiceConf(key: string, serviceName: string, serviceUrl: string, basePath: string)

  /** The four platform services, in configuration order. */
  const PlatformServices: seq<ServiceConf> := [
    ServiceConf("document_processing", "Extraction Service", "document/service/health", "/admin/document/"),
    ServiceConf("model_invocation", "Model Invocation Service", "model/service/health", "/admin/model/"),
    ServiceConf("vectorization", "Vectorization Service", "vector/service/health", "/admin/vector/"),
    ServiceConf("prompt_management", "Prompt Management Service", "prompt/service/health", "/admin/prompt/")
  ]

  /** The outcome of one GET: the request raised, or the service answered with a status. */
  datatype HttpOutcome = Unreachable | Answered(status: int)

  datatype Health = Healthy | Unhealthy

  datatype ServiceStatus = ServiceStatus(serviceName: string, status: Health)

  /** The status text of a health entry. */
  function HealthText(h: Health): string
  {
    if h == Healthy then "healthy" else "unhealthy"
  }

  /**
   * services_health: one entry per service, in order; get(url, authorization) is the
   * HTTP GET. A raise, an error status or any status other than 200 is unhealthy.
   */
  method ServicesHealth(baseUrl: string, token: string, get: (string, string) -> HttpOutcome) returns (statuses: seq<ServiceStatus>)
    ensures |statuses| == |PlatformServices|
    ensures forall i :: 0 <= i < |statuses| ==> statuses[i].serviceName == PlatformServices[i].serviceName
    ensures forall i :: 0 <= i < |statuses| ==>
      (statuses[i].status == Healthy <==> get(baseUrl + PlatformServices[i].serviceUrl, "Bearer " + token) == Answered(200))
  {
    statuses := [];
    var headers := "Bearer " + token;
    for i := 0 to |PlatformServices|
      invariant |statuses| == i
      invariant forall k :: 0 <= k < i ==> statuses[k].serviceName == PlatformServices[k].serviceName
      invariant forall k :: 0 <= k < i ==>
        (statuses[k].status == Healthy <==> get(baseUrl + PlatformServices[k].serviceUrl, headers) == Answered(200))
    {
      var details := PlatformServices[i];
      var response := get(baseUrl + details.serviceUrl, headers);
      if response.Unreachable? || response.status >= 400 {
        statuses := statuses + [ServiceStatus(details.serviceName, Unhealthy)];
        continue;
      }
      var status := if response.status == 200 then Healthy else Unhealthy;
      statuses := statuses + [ServiceStatus(details.serviceName, status)];
    }
  }

  // ---------------------------------------------------------------------
  // fetch_openapi_spec
  // ---------------------------------------------------------------------

  /** The meta paths of the four services, fetched in this order. */
  const SpecLinks: seq<string> := ["model/service/meta", "document/service/meta", "vector/service/meta", "prompt/service/meta"]

  /** The outcome of one spec request: a raise, or a status with its parsed body. */
  datatype FetchOutcome = FetchRaised | Fetched(status: int, body: Json)

  /** The request failed or raise_for_status raised. */
  predicate Fails(o: FetchOutcome)
  {
    o.FetchRaised? || o.status >= 400
  }

  /** The bodies kept by the fetch loop, or None when some request raises. */
  function Collected(outs: seq<FetchOutcome>): (r: Option<seq<Json>>)
    ensures r.Some? ==> |r.value| <= |outs|
  {
    if outs == [] then Some([])
    else
      var rest := Collected(outs[..|outs| - 1]);
      var last := outs[|outs| - 1];
      if Fails(last) then None
      else if rest.None? then None
      else if last.status == 200 then Some(rest.value + [last.body]) else rest
  }

  /** The fetch fails exactly when some request fails; otherwise it keeps only 200 bodies. */
  lemma {:induction false} CollectedFacts(outs: seq<FetchOutcome>)
    ensures Collected(outs).None? <==> exists i :: 0 <= i < |outs| && Fails(outs[i])
    ensures Collected(outs).Some? ==> forall b :: b in Collected(outs).value ==> Fetched(200, b) in outs
  {
    if outs != [] {
      var init := outs[..|outs| - 1];
      CollectedFacts(init);
      if exists i :: 0 <= i < |init| && Fails(init[i]) {
        var i :| 0 <= i < |init| && Fails(init[i]);
        assert outs[i] == init[i];
      }
      if exists i :: 0 <= i < |outs| && Fails(outs[i]) {
        var i :| 0 <= i < |outs| && Fails(outs[i]);
        if i < |init| {
          assert init[i] == outs[i];
        }
      }
    }
  }

  /** A response that is neither 200 nor an error adds nothing. */
  lemma OtherStatusIgnored(outs: seq<FetchOutcome>, status: int, body: Json)
    requires status != 200 && status < 400
    ensures Collected(outs + [Fetched(status, body)]) == Collected(outs)
  {
    assert (outs + [Fetched(status, body)])[..|outs|] == outs;
  }

  /** `d.get(key, {})` on a JSON object. */
  function GetOrEmpty(fields: map<string, Json>, key: string): Json
  {
    if key in fields then fields[key] else JObj(map[])
  }

  /**
   * The paths and the component schemas of one spec; None when the spec, its paths,
   * its components or its schemas are not objects, which makes the merge raise.
   */
  function SpecParts(spec: Json): Option<(map<string, Json>, map<string, Json>)>
  {
    if !spec.JObj? then None
    else
      var paths := GetOrEmpty(spec.fields, "paths");
      var components := GetOrEmpty(spec.fields, "components");
      if !paths.JObj? || !components.JObj? then None
      else
        var schemas := GetOrEmpty(components.fields, "schemas");
        match UpdateEntries(schemas)
        case None => None
        case Some(entries) => Some((paths.fields, entries))
  }

  /**
   * What dict.update takes from its argument: an object's entries, or the key/value pairs an
   * iterable yields in order, a later pair replacing an earlier one; None is the raise.
   */
  function UpdateEntries(v: Json): (r: Option<map<string, Json>>)
    ensures v.JObj? ==> r == Some(v.fields)
    ensures v.JStr? ==> (r.Some? <==> v.s == "")
    ensures v.JNull? || v.JBool? || v.JInt? || v.JNum? ==> r.None?
  {
    match v
    case JObj(fields) => Some(fields)
    case JStr(s) => if s == "" then Some(map[]) else None
    case JArr(items) => PairEntries(items)
    case _ => None
  }

  /** One element of the iterable as a key/value pair: a two-item list with a text key, or a two-character text. */
  function UpdatePair(item: Json): Option<(string, Json)>
  {
    match item
    case JArr(xs) => if |xs| == 2 && xs[0].JStr? then Some((xs[0].s, xs[1])) else None
    case JStr(s) => if |s| == 2 then Some(([s[0]], JStr([s[1]]))) else None
    case _ => None
  }

  /** The entries of a list of pairs: defined exactly when every element is a pair, the last pair of a key winning. */
  function PairEntries(items: seq<Json>): (r: Option<map<string, Json>>)
    ensures r.Some? <==> forall i :: 0 <= i < |items| ==> UpdatePair(items[i]).Some?
    ensures r.Some? ==> forall i :: 0 <= i < |items| ==> UpdatePair(items[i]).value.0 in r.value
    ensures r.Some? && items != [] ==> r.value[UpdatePair(items[|items| - 1]).value.0] == UpdatePair(items[|items| - 1]).value.1
  {
    if items == [] then Some(map[])
    else
      var init := items[..|items| - 1];
      assert forall i :: 0 <= i < |init| ==> init[i] == items[i];
      match PairEntries(init)
      case None => None
      case Some(m) =>
        match UpdatePair(items[|items| - 1])
        case None => None
        case Some(kv) => Some(m[kv.0 := kv.1])
  }

  /** A spec whose schemas is an empty list or an empty text merges like one without schemas. */
  lemma EmptySchemasMerge(paths: map<string, Json>, schemas: Json)
    requires schemas == JArr([]) || schemas == JStr("")
    ensures SpecParts(JObj(map["paths" := JObj(paths), "components" := JObj(map["schemas" := schemas])])) == Some((paths, map[]))
  {
    var spec := JObj(map["paths" := JObj(paths), "components" := JObj(map["schemas" := schemas])]);
    assert GetOrEmpty(spec.fields, "paths") == JObj(paths);
    assert GetOrEmpty(spec.fields, "components") == JObj(map["schemas" := schemas]);
    assert GetOrEmpty(map["schemas" := schemas], "schemas") == schemas;
  }

  /** Pairs in a list of schemas are merged in order, a later pair replacing an earlier one. */
  lemma PairSchemasMerge(k: string, v1: Json, v2: Json)
    ensures UpdateEntries(JArr([JArr([JStr(k), v1]), JArr([JStr(k), v2])])) == Some(map[k := v2])
    ensures UpdateEntries(JArr([JStr("ab")])) == Some(map["a" := JStr("b")])
    ensures UpdateEntries(JArr([JStr("abc")])).None? && UpdateEntries(JStr("ab")).None?
  {
    var items := [JArr([JStr(k), v1]), JArr([JStr(k), v2])];
    assert items[..1] == [JArr([JStr(k), v1])];
    assert [JArr([JStr(k), v1])][..0] == [];
    assert PairEntries(items[..1]) == Some(map[k := v1]);
    assert PairEntries(items) == Some(map[k := v1][k := v2]);
    assert map[k := v1][k := v2] == map[k := v2];
    assert [JStr("ab")][..0] == [];
    assert [JStr("abc")][..0] == [];
    assert UpdatePair(JStr("abc")).None?;
  }

  /** The paths and schemas after merging the specs in order: a later entry replaces an earlier one. */
  function Merged(specs: seq<Json>): (r: Option<(map<string, Json>, map<string, Json>)>)
    ensures r.Some? <==> forall i :: 0 <= i < |specs| ==> SpecParts(specs[i]).Some?
    ensures r.Some? ==> forall i :: 0 <= i < |specs| ==>
      SpecParts(specs[i]).value.0.Keys <= r.value.0.Keys && SpecParts(specs[i]).value.1.Keys <= r.value.1.Keys
  {
    if specs == [] then Some((map[], map[]))
    else
      assert forall i :: 0 <= i < |specs| - 1 ==> specs[..|specs| - 1][i] == specs[i];
      match Merged(specs[..|specs| - 1])
      case None => None
      case Some(acc) =>
        match SpecParts(specs[|specs| - 1])
        case None => None
        case Some(p) => Some((acc.0 + p.0, acc.1 + p.1))
  }

  /** A path of spec i that no later spec has keeps spec i's entry. */
  lemma {:induction false} LaterSpecWins(specs: seq<Json>, i: nat, path: string)
    requires i < |specs| && Merged(specs).Some? && SpecParts(specs[i]).Some?
    requires path in SpecParts(specs[i]).value.0
    requires forall j :: i < j < |specs| ==> SpecParts(specs[j]).Some? && path !in SpecParts(specs[j]).value.0
    ensures path in Merged(specs).value.0 && Merged(specs).value.0[path] == SpecParts(specs[i]).value.0[path]
  {
    var init := specs[..|specs| - 1];
    if i < |specs| - 1 {
      forall j | i < j < |init|
        ensures SpecParts(init[j]).Some? && path !in SpecParts(init[j]).value.0
      {
        assert init[j] == specs[j];
      }
      assert init[i] == specs[i];
      LaterSpecWins(init, i, path);
    }
  }

  /** The document fetch_openapi_spec builds around the merged paths and schemas. */
  function MainSpec(paths: map<string, Json>, schemas: map<string, Json>): (j: Json)
    ensures j.JObj? && "openapi" in j.fields && j.fields["openapi"] == JStr("3.0.2")
    ensures "paths" in j.fields && j.fields["paths"] == JObj(paths)
  {
    JObj(map[
      "openapi" := JStr("3.0.2"),
      "info" := JObj(map["title" := JStr("Generative AI Foundations API"), "version" := JStr("0.1")]),
      "paths" := JObj(paths),
      "components" := JObj(map["schemas" := JObj(schemas)])])
  }

  /** The result of fetch_openapi_spec for the given outcomes; None is the swallowed exception. */
  function SpecOf(outs: seq<FetchOutcome>): (r: Option<Json>)
  {
    match Collected(outs)
    case None => None
    case Some(specs) =>
      match Merged(specs)
      case None => None
      case Some(m) => Some(MainSpec(m.0, m.1))
  }

  /** The outcomes of the GETs of the given links, in order. */
  function Requests(baseUrl: string, auth: string, get: (string, string) -> FetchOutcome, links: seq<string>): (r: seq<FetchOutcome>)
    ensures |r| == |links| && forall k :: 0 <= k < |links| ==> r[k] == get(baseUrl + links[k], auth)
  {
    if links == [] then [] else Requests(baseUrl, auth, get, links[..|links| - 1]) + [get(baseUrl + links[|links| - 1], auth)]
  }

  /**
   * fetch_openapi_spec: the token, one GET per meta link with raise_for_status, the 200
   * bodies merged path by path and schemas by update. Any failure yields None.
   */
  method FetchOpenApiSpec(baseUrl: string, token: Result<string, string>, get: (string, string) -> FetchOutcome)
    returns (r: Option<Json>)
    ensures token.Err? ==> r.None?
    ensures token.Ok? ==> r == SpecOf(Requests(baseUrl, "Bearer " + token.value, get, SpecLinks))
  {
    if token.Err? {
      return None;
    }
    var specJsons := CollectSpecs(baseUrl, "Bearer " + token.value, get, SpecLinks);
    if specJsons.None? {
      return None;
    }
    var merged := MergeSpecs(specJsons.value);
    if merged.None? {
      return None;
    }
    return Some(MainSpec(merged.value.0, merged.value.1));
  }

  /** The fetch loop of fetch_openapi_spec over the given links: a failing request ends it with None. */
  method CollectSpecs(baseUrl: string, headers: string, get: (string, string) -> FetchOutcome, links: seq<string>)
    returns (r: Option<seq<Json>>)
    ensures r == Collected(Requests(baseUrl, headers, get, links))
  {
    var specJsons: seq<Json> := [];
    for i := 0 to |links|
      invariant Collected(Requests(baseUrl, headers, get, links[..i])) == Some(specJsons)
    {
      var response := get(baseUrl + links[i], headers);
      ghost var before := Requests(baseUrl, headers, get, links[..i]);
      ghost var after := Requests(baseUrl, headers, get, links[..i + 1]);
      assert links[..i + 1][..i] == links[..i];
      assert after == before + [response];
      assert after[..|after| - 1] == before;
      if Fails(response) {
        assert links[..|links|] == links;
        CollectedNoneStays(Requests(baseUrl, headers, get, links), i + 1);
        return None;
      }
      if response.status == 200 {
        specJsons := specJsons + [response.body];
      }
    }
    assert links[..|links|] == links;
    return Some(specJsons);
  }

  /** Once the requests so far have failed, the fetch fails. */
  lemma {:induction false} CollectedNoneStays(outs: seq<FetchOutcome>, n: nat)
    requires n <= |outs| && Collected(outs[..n]).None?
    ensures Collected(outs).None?
    decreases |outs| - n
  {
    if n < |outs| {
      assert outs[..n + 1][..n] == outs[..n];
      CollectedNoneStays(outs, n + 1);
    } else {
      assert outs[..n] == outs;
    }
  }

  /** The merge loop of fetch_openapi_spec. */
  method MergeSpecs(specJsons: seq<Json>) returns (r: Option<(map<string, Json>, map<string, Json>)>)
    ensures r == Merged(specJsons)
  {
    var paths: map<string, Json> := map[];
    var schemas: map<string, Json> := map[];
    for i := 0 to |specJsons|
      invariant Merged(specJsons[..i]) == Some((paths, schemas))
    {
      assert specJsons[..i + 1][..i] == specJsons[..i];
      var parts := SpecParts(specJsons[i]);
      if parts.None? {
        MergedNoneStays(specJsons, i + 1);
        return None;
      }
      paths := AddPaths(paths, parts.value.0);
      schemas := schemas + parts.value.1;
    }
    assert specJsons[..|specJsons|] == specJsons;
    return Some((paths, schemas));
  }

  /** `for path, path_item in spec_paths.items(): paths[path] = path_item`. */
  method AddPaths(paths0: map<string, Json>, specPaths: map<string, Json>) returns (paths: map<string, Json>)
    ensures paths == paths0 + specPaths
  {
    paths := paths0;
    var pending := specPaths.Keys;
    while pending != {}
      invariant Overlaying(paths, paths0, specPaths, pending)
      decreases |pending|
    {
      var path :| path in pending;
      AddStep(paths, paths0, specPaths, pending, path);
      paths := paths[path := specPaths[path]];
      pending := pending - {path};
    }
    Overlaid(paths, paths0, specPaths);
  }

  /** Part way through the loop: the keys not pending hold the spec's entries, the rest the first map's. */
  predicate Overlaying(paths: map<string, Json>, paths0: map<string, Json>, specPaths: map<string, Json>, pending: set<string>)
  {
    pending <= specPaths.Keys &&
    paths.Keys == paths0.Keys + (specPaths.Keys - pending) &&
    forall k :: k in paths ==> paths[k] == if k in specPaths.Keys - pending then specPaths[k] else paths0[k]
  }

  /** Writing one pending path keeps the loop's picture. */
  lemma AddStep(paths: map<string, Json>, paths0: map<string, Json>, specPaths: map<string, Json>, pending: set<string>, path: string)
    requires Overlaying(paths, paths0, specPaths, pending) && path in pending
    ensures path in specPaths
    ensures Overlaying(paths[path := specPaths[path]], paths0, specPaths, pending - {path})
    ensures |pending - {path}| < |pending|
  {
  }

  /** When nothing is pending, the map is the union with the spec's entries winning. */
  lemma Overlaid(paths: map<string, Json>, paths0: map<string, Json>, specPaths: map<string, Json>)
    requires Overlaying(paths, paths0, specPaths, {})
    ensures paths == paths0 + specPaths
  {
  }

  /** Once a prefix of the specs fails to merge, so do all the specs. */
  lemma {:induction false} MergedNoneStays(specs: seq<Json>, n: nat)
    requires n <= |specs| && Merged(specs[..n]).None?
    ensures Merged(specs).None?
    decreases |specs| - n
  {
    if n < |specs| {
      assert specs[..n + 1][..n] == specs[..n];
      MergedNoneStays(specs, n + 1);
    } else {
      assert specs[..n] == specs;
    }
  }
}
