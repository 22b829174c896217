/** The outage extractor (`check_psn_status`): from the status document, the
    outage entries of the target country, each normalised into a record. */
module Extractor {
  import opened Values
  import opened Text

  /** The country monitored when the configuration names none. */
  const DefaultCountry := "India"

  /** The configured `CountryName`, or the default. */
  function TargetCountry(configured: Option<string>): (target: string)
    ensures configured.Some? ==> target == configured.value
    ensures configured.None? ==> target == "India"
  {
    configured.GetOr(DefaultCountry)
  }

  /** One outage record. `statusId`, `message` and the device names are
      copied from the document as they are, whatever their JSON type. */
  datatype Outage = Outage(
    country: string,
    statusId: Json,
    startDateUtc: string,
    startDateLocal: string,
    affectedDevices: seq<Json>,
    affectedService: string,
    message: Json)

  /** The timestamp conversion (`strptime`, time-zone conversion and
      `strftime`): the UTC and local renderings, or None where it raises.
      The format `%Y-%m-%dT%H:%M:%S.%f%z` begins with digits, so the
      placeholder "Unknown" never parses. */
  type TimeParser = parse: string -> Option<(string, string)> | parse("Unknown") == None
    witness (s: string) => None

  const UnknownTime: (string, string) := ("Unknown", "Unknown")

  /** `format_time`: the parser's pair, or the Unknown pair when the value is
      not a string or the parser fails. */
  function FormatTime(parse: TimeParser, v: Json): (r: (string, string))
    ensures r == UnknownTime || (v.JStr? && parse(v.s) == Some(r))
    ensures v.JStr? && parse(v.s).Some? ==> r == parse(v.s).value
    ensures !v.JStr? || parse(v.s).None? ==> r == UnknownTime
    ensures v == JStr("Unknown") ==> r == UnknownTime
  {
    match v
    case JStr(s) => parse(s).GetOr(UnknownTime)
    case _ => UnknownTime
  }

  /** A loop over `items` that appends what `f` gives for each item and
      stops at the first item for which `f` raises. */
  function Collect<T>(items: seq<Json>, f: Json -> Result<seq<T>>): Result<seq<T>>
    decreases |items|
  {
    if items == [] then Ok([])
    else
      var init :- Collect(items[..|items| - 1], f);
      var last :- f(items[|items| - 1]);
      Ok(init + last)
  }

  /** The name of one device, `device.get("deviceName", "Unknown Device")`. */
  function DeviceName(device: Json): Result<seq<Json>> {
    var name :- Get(device, "deviceName", JStr("Unknown Device"));
    Ok([name])
  }

  /** `messageKey.split(".")[1] if messageKey else ""`. */
  function AffectedService(key: Json): Result<string> {
    if !Truthy(key) then Ok("")
    else if !key.JStr? then Err(AttributeError)
    else
      var parts := Split(key.s);
      if |parts| < 2 then Err(IndexError) else Ok(parts[1])
  }

  /** The record built from one outage entry of `country`. */
  function Normalize(country: string, status: seq<(string, Json)>, parse: TimeParser): Result<Outage> {
    var devices :- Iterate(Lookup(status, "devices").GetOr(JArr([])));
    var names :- Collect(devices, DeviceName);
    var message := Lookup(status, "message").GetOr(JObj([]));
    var messages :- Get(message, "messages", JObj([]));
    var text :- Get(messages, "en-GB", JStr("No message available"));
    var key :- Get(message, "messageKey", JObj([]));
    var times := FormatTime(parse, Lookup(status, "startDate").GetOr(JStr("Unknown")));
    var service :- AffectedService(key);
    Ok(Outage(country, Lookup(status, "statusId").GetOr(JStr("Unknown")),
              times.0, times.1, names, service, text))
  }

  /** One status entry of a matching country: a record when its type is
      "outage" in any case, nothing otherwise. */
  function StatusEntry(country: string, item: Json, parse: TimeParser): Result<seq<Outage>> {
    var kind :- Get(item, "statusType", JStr(""));
    if !kind.JStr? then Err(AttributeError)
    else if LowerAscii(kind.s) != "outage" then Ok([])
    else
      var record :- Normalize(country, item.fields, parse);
      Ok([record])
  }

  function StatusStep(country: string, parse: TimeParser): Json -> Result<seq<Outage>> {
    item => StatusEntry(country, item, parse)
  }

  /** One country of the document: its outage records when its name equals
      the target up to case, nothing otherwise. */
  function CountryEntry(item: Json, target: string, parse: TimeParser): Result<seq<Outage>> {
    var name :- Get(item, "countryName", JStr("Unknown"));
    if !name.JStr? then Err(AttributeError)
    else if LowerAscii(name.s) != LowerAscii(target) then Ok([])
    else
      var statusList :- Get(item, "status", JArr([]));
      var statuses :- Iterate(statusList);
      Collect(statuses, StatusStep(name.s, parse))
  }

  function CountryStep(target: string, parse: TimeParser): Json -> Result<seq<Outage>> {
    item => CountryEntry(item, target, parse)
  }

  /** `check_psn_status`: the records of the whole document. A missing or
      empty document, or one without "countries", has none. */
  function Extract(data: Json, target: string, parse: TimeParser): Result<seq<Outage>> {
    if !Truthy(data) then Ok([])
    else
      var present :- Contains(data, "countries");
      if !present then Ok([])
      else
        var countryList :- Subscript(data, "countries");
        var countries :- Iterate(countryList);
        Collect(countries, CountryStep(target, parse))
  }

  /** Once one item raises, the loop raises that, whatever follows. */
  lemma {:induction false} CollectFailureStays<T>(items: seq<Json>, k: nat, f: Json -> Result<seq<T>>)
    requires k <= |items|
    requires Collect(items[..k], f).Err?
    decreases |items| - k
    ensures Collect(items, f) == Collect(items[..k], f)
  {
    if k < |items| {
      var init := items[..|items| - 1];
      assert init[..k] == items[..k];
      CollectFailureStays(init, k, f);
    } else {
      assert items[..k] == items;
    }
  }

  /** The loop over `items[..i+1]`, one more item than `items[..i]`. */
  lemma CollectNext<T>(items: seq<Json>, i: nat, f: Json -> Result<seq<T>>)
    requires i < |items|
    ensures Collect(items[..i + 1], f) ==
            match Collect(items[..i], f)
            case Err(e) => Err(e)
            case Ok(init) => (match f(items[i]) case Err(e) => Err(e) case Ok(last) => Ok(init + last))
  {
    assert items[..i + 1][..i] == items[..i];
  }

  /** The item at `i` raises after the earlier items went through: the whole
      loop raises that. */
  lemma CollectFailsAt<T>(items: seq<Json>, i: nat, f: Json -> Result<seq<T>>)
    requires i < |items|
    requires Collect(items[..i], f).Ok? && f(items[i]).Err?
    ensures Collect(items, f) == Err(f(items[i]).failure)
  {
    CollectNext(items, i, f);
    CollectFailureStays(items, i + 1, f);
  }

  /** `check_psn_status` as the code runs it: a loop over the countries,
      appending the outages of each. */
  method CheckStatus(data: Json, target: string, parse: TimeParser) returns (r: Result<seq<Outage>>)
    ensures r == Extract(data, target, parse)
  {
    if !Truthy(data) {
      return Ok([]);
    }
    var present := Contains(data, "countries");
    if present.Err? {
      return Err(present.failure);
    }
    if !present.value {
      return Ok([]);
    }
    var countryList := Subscript(data, "countries");
    if countryList.Err? {
      return Err(countryList.failure);
    }
    var countries := Iterate(countryList.value);
    if countries.Err? {
      return Err(countries.failure);
    }
    var items := countries.value;
    ghost var f := CountryStep(target, parse);
    var outages: seq<Outage> := [];
    var i := 0;
    while i < |items|
      invariant 0 <= i <= |items|
      invariant Collect(items[..i], f) == Ok(outages)
    {
      var found := CountryOutages(items[i], target, parse);
      if found.Err? {
        CollectFailsAt(items, i, f);
        return Err(found.failure);
      }
      outages := outages + found.value;
      CollectNext(items, i, f);
      i := i + 1;
    }
    assert items[..i] == items;
    return Ok(outages);
  }

  /** The body of the loop over countries: the loop over one country's
      status entries. */
  method CountryOutages(country: Json, target: string, parse: TimeParser) returns (r: Result<seq<Outage>>)
    ensures r == CountryEntry(country, target, parse)
  {
    var nameV := Get(country, "countryName", JStr("Unknown"));
    if nameV.Err? {
      return Err(nameV.failure);
    }
    if !nameV.value.JStr? {
      return Err(AttributeError);
    }
    var name := nameV.value.s;
    if LowerAscii(name) != LowerAscii(target) {
      return Ok([]);
    }
    var statusList := Get(country, "status", JArr([]));
    var statuses := Iterate(statusList.value);
    if statuses.Err? {
      return Err(statuses.failure);
    }
    r := StatusOutages(name, statuses.value, parse);
  }

  /** The loop over one matching country's status entries. */
  method StatusOutages(name: string, list: seq<Json>, parse: TimeParser) returns (r: Result<seq<Outage>>)
    ensures r == Collect(list, StatusStep(name, parse))
  {
    ghost var g := StatusStep(name, parse);
    var outages: seq<Outage> := [];
    var j := 0;
    while j < |list|
      invariant 0 <= j <= |list|
      invariant Collect(list[..j], g) == Ok(outages)
    {
      var found := StatusOutage(name, list[j], parse);
      assert g(list[j]) == found;
      if found.Err? {
        CollectFailsAt(list, j, g);
        return Err(found.failure);
      }
      outages := outages + found.value;
      CollectNext(list, j, g);
      j := j + 1;
    }
    assert list[..j] == list;
    return Ok(outages);
  }

  /** The body of the loop over status entries: the record of an outage
      entry, nothing for another entry. */
  method StatusOutage(name: string, status: Json, parse: TimeParser) returns (r: Result<seq<Outage>>)
    ensures r == StatusEntry(name, status, parse)
  {
    var kind := Get(status, "statusType", JStr(""));
    if kind.Err? {
      return Err(kind.failure);
    }
    if !kind.value.JStr? {
      return Err(AttributeError);
    }
    if LowerAscii(kind.value.s) != "outage" {
      return Ok([]);
    }
    var record := Normalize(name, status.fields, parse);
    if record.Err? {
      return Err(record.failure);
    }
    return Ok([record.value]);
  }
}
