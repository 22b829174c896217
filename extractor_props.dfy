/** What `check_psn_status` promises: which entries it reports, in what
    order, and the defaults each record takes. */
module ExtractorProperties {
  import opened Values
  import opened Text
  import opened Extractor

  /** An outage entry as found in the document: the country name and the
      status entry's fields. */
  type Entry = (string, seq<(string, Json)>)

  /** The items `g` picks out of each element of `xs`, in order. */
  function FlatMap<T>(xs: seq<Json>, g: Json -> seq<T>): seq<T>
    decreases |xs|
  {
    if xs == [] then [] else g(xs[0]) + FlatMap(xs[1..], g)
  }

  /** A status entry is an outage when it is a dict whose `statusType` is a
      string equal to "outage" up to case. */
  predicate IsOutageEntry(item: Json) {
    item.JObj? &&
    var kind := Lookup(item.fields, "statusType").GetOr(JStr(""));
    kind.JStr? && LowerAscii(kind.s) == "outage"
  }

  function OutageEntries(country: string): Json -> seq<Entry> {
    (item: Json) => if IsOutageEntry(item) then [(country, item.fields)] else []
  }

  /** The outage entries of one country of the document, none when its name
      is not the target's. */
  function TargetEntries(target: string): Json -> seq<Entry> {
    (item: Json) =>
      if !item.JObj? then []
      else
        var name := Lookup(item.fields, "countryName").GetOr(JStr("Unknown"));
        if !name.JStr? || LowerAscii(name.s) != LowerAscii(target) then []
        else
          match Iterate(Lookup(item.fields, "status").GetOr(JArr([])))
          case Ok(statuses) => FlatMap(statuses, OutageEntries(name.s))
          case Err(_) => []
  }

  /** Every outage entry of every country named like the target, in
      document order. */
  function Selected(data: Json, target: string): seq<Entry> {
    if data.JObj? && HasKey(data.fields, "countries") then
      match Iterate(Lookup(data.fields, "countries").value)
      case Ok(countries) => FlatMap(countries, TargetEntries(target))
      case Err(_) => []
    else []
  }

  /** `records` are the normalised `entries`, one for one, in order. */
  predicate Produces(entries: seq<Entry>, records: seq<Outage>, parse: TimeParser) {
    |entries| == |records| &&
    forall k :: 0 <= k < |entries| ==> Normalize(entries[k].0, entries[k].1, parse) == Ok(records[k])
  }

  /** The name shown for a device: its `deviceName`, or "Unknown Device". */
  function DeviceLabel(device: seq<(string, Json)>): Json {
    Lookup(device, "deviceName").GetOr(JStr("Unknown Device"))
  }

  /** The `en-GB` text under `message.messages`, where every level is present. */
  function EnglishText(status: seq<(string, Json)>): Option<Json> {
    match Lookup(status, "message")
    case Some(JObj(m)) =>
      (match Lookup(m, "messages")
       case Some(JObj(ms)) => Lookup(ms, "en-GB")
       case _ => None)
    case _ => None
  }

  /** The `messageKey` as the code reads it, `{}` when it or the message is absent. */
  function MessageKey(status: seq<(string, Json)>): Json {
    match Lookup(status, "message")
    case Some(JObj(m)) => Lookup(m, "messageKey").GetOr(JObj([]))
    case _ => JObj([])
  }

  lemma {:induction false} FlatMapAppend<T>(a: seq<Json>, b: seq<Json>, g: Json -> seq<T>)
    decreases |a|
    ensures FlatMap(a + b, g) == FlatMap(a, g) + FlatMap(b, g)
  {
    if a == [] {
      assert a + b == b;
    } else {
      assert (a + b)[1..] == a[1..] + b;
      FlatMapAppend(a[1..], b, g);
    }
  }

  lemma FlatMapLast<T>(xs: seq<Json>, g: Json -> seq<T>)
    requires xs != []
    ensures FlatMap(xs, g) == FlatMap(xs[..|xs| - 1], g) + g(xs[|xs| - 1])
  {
    var n := |xs| - 1;
    assert xs == xs[..n] + [xs[n]];
    FlatMapAppend(xs[..n], [xs[n]], g);
    assert FlatMap([xs[n]], g) == g(xs[n]) + FlatMap([], g);
  }

  lemma {:induction false} FlatMapMember<T>(xs: seq<Json>, g: Json -> seq<T>, e: T)
    requires e in FlatMap(xs, g)
    decreases |xs|
    ensures exists i :: 0 <= i < |xs| && e in g(xs[i])
  {
    if e !in g(xs[0]) {
      FlatMapMember(xs[1..], g, e);
      var i :| 0 <= i < |xs[1..]| && e in g(xs[1..][i]);
      assert e in g(xs[i + 1]);
    }
  }

  lemma ProducesAppend(a: seq<Entry>, x: seq<Outage>, b: seq<Entry>, y: seq<Outage>, parse: TimeParser)
    requires Produces(a, x, parse) && Produces(b, y, parse)
    ensures Produces(a + b, x + y, parse)
  {
    forall k | 0 <= k < |a + b|
      ensures Normalize((a + b)[k].0, (a + b)[k].1, parse) == Ok((x + y)[k])
    {
      if k >= |a| {
        assert (a + b)[k] == b[k - |a|] && (x + y)[k] == y[k - |a|];
      }
    }
  }

  /** The loop over one country's status entries yields one record per
      outage entry, in order. */
  lemma {:induction false} StatusesProduce(name: string, list: seq<Json>, parse: TimeParser)
    requires Collect(list, StatusStep(name, parse)).Ok?
    decreases |list|
    ensures Produces(FlatMap(list, OutageEntries(name)), Collect(list, StatusStep(name, parse)).value, parse)
  {
    if list != [] {
      var n := |list| - 1;
      var item := list[n];
      StatusesProduce(name, list[..n], parse);
      FlatMapLast(list, OutageEntries(name));
      assert StatusStep(name, parse)(item) == StatusEntry(name, item, parse);
      ProducesAppend(FlatMap(list[..n], OutageEntries(name)), Collect(list[..n], StatusStep(name, parse)).value,
                     OutageEntries(name)(item), StatusEntry(name, item, parse).value, parse);
    }
  }

  lemma CountryProduces(item: Json, target: string, parse: TimeParser)
    requires CountryEntry(item, target, parse).Ok?
    ensures Produces(TargetEntries(target)(item), CountryEntry(item, target, parse).value, parse)
  {
    var name := Lookup(item.fields, "countryName").GetOr(JStr("Unknown"));
    if LowerAscii(name.s) == LowerAscii(target) {
      var statuses := Iterate(Lookup(item.fields, "status").GetOr(JArr([]))).value;
      StatusesProduce(name.s, statuses, parse);
    }
  }

  /** The loop over the countries yields one record per outage entry of a
      target country, in order. */
  lemma {:induction false} CountriesProduce(list: seq<Json>, target: string, parse: TimeParser)
    requires Collect(list, CountryStep(target, parse)).Ok?
    decreases |list|
    ensures Produces(FlatMap(list, TargetEntries(target)), Collect(list, CountryStep(target, parse)).value, parse)
  {
    if list != [] {
      var n := |list| - 1;
      var item := list[n];
      CountriesProduce(list[..n], target, parse);
      FlatMapLast(list, TargetEntries(target));
      assert CountryStep(target, parse)(item) == CountryEntry(item, target, parse);
      CountryProduces(item, target, parse);
      ProducesAppend(FlatMap(list[..n], TargetEntries(target)), Collect(list[..n], CountryStep(target, parse)).value,
                     TargetEntries(target)(item), CountryEntry(item, target, parse).value, parse);
    }
  }

  /** A document that is empty, absent, or a dict without "countries" has no
      outages. */
  lemma NoCountriesNoOutages(data: Json, target: string, parse: TimeParser)
    requires !Truthy(data) || (data.JObj? && !HasKey(data.fields, "countries"))
    ensures Extract(data, target, parse) == Ok([])
  {
  }

  /** When the extraction goes through, it reports exactly one record per
      outage entry of a country named like the target, in document order,
      each the normalisation of that entry; every other entry and every
      other country contributes nothing. */
  lemma OneRecordPerOutageEntry(data: Json, target: string, parse: TimeParser)
    requires Extract(data, target, parse).Ok?
    ensures Produces(Selected(data, target), Extract(data, target, parse).value, parse)
  {
    if Truthy(data) && Contains(data, "countries").value {
      var countries := Iterate(Subscript(data, "countries").value).value;
      CountriesProduce(countries, target, parse);
    }
  }

  /** Every selected entry belongs to a country named like the target and
      is an outage. */
  lemma SelectedAreTargetOutages(data: Json, target: string)
    ensures forall e :: e in Selected(data, target) ==>
              LowerAscii(e.0) == LowerAscii(target) && IsOutageEntry(JObj(e.1))
  {
    forall e | e in Selected(data, target)
      ensures LowerAscii(e.0) == LowerAscii(target) && IsOutageEntry(JObj(e.1))
    {
      var countries := Iterate(Lookup(data.fields, "countries").value).value;
      FlatMapMember(countries, TargetEntries(target), e);
      var i :| 0 <= i < |countries| && e in TargetEntries(target)(countries[i]);
      var item := countries[i];
      var name := Lookup(item.fields, "countryName").GetOr(JStr("Unknown"));
      var statuses := Iterate(Lookup(item.fields, "status").GetOr(JArr([]))).value;
      FlatMapMember(statuses, OutageEntries(name.s), e);
    }
  }

  /** Every reported record names a country equal to the target up to case. */
  lemma RecordsAreForTarget(data: Json, target: string, parse: TimeParser)
    requires Extract(data, target, parse).Ok?
    ensures forall o :: o in Extract(data, target, parse).value ==> LowerAscii(o.country) == LowerAscii(target)
  {
    var records := Extract(data, target, parse).value;
    var entries := Selected(data, target);
    OneRecordPerOutageEntry(data, target, parse);
    SelectedAreTargetOutages(data, target);
    forall o | o in records ensures LowerAscii(o.country) == LowerAscii(target) {
      var k :| 0 <= k < |records| && records[k] == o;
      assert entries[k] in entries;
      NormalizedFields(entries[k].0, entries[k].1, parse);
    }
  }

  /** The device loop succeeds exactly when every device is a dict, and then
      gives one label per device, in order. */
  lemma {:induction false} DeviceLabels(devices: seq<Json>)
    decreases |devices|
    ensures Collect(devices, DeviceName).Ok? <==> forall k :: 0 <= k < |devices| ==> devices[k].JObj?
    ensures Collect(devices, DeviceName).Ok? ==>
              var labels := Collect(devices, DeviceName).value;
              |labels| == |devices| && forall k :: 0 <= k < |devices| ==> labels[k] == DeviceLabel(devices[k].fields)
  {
    if devices != [] {
      var n := |devices| - 1;
      var init := devices[..n];
      DeviceLabels(init);
      assert forall k :: 0 <= k < n ==> init[k] == devices[k];
    }
  }

  /** The plain fields of a record: the country as given, `statusId` or
      "Unknown", the `en-GB` text or "No message available", and the start
      times from the parser or the Unknown pair. */
  lemma NormalizedFields(country: string, status: seq<(string, Json)>, parse: TimeParser)
    requires Normalize(country, status, parse).Ok?
    ensures var o := Normalize(country, status, parse).value;
      && o.country == country
      && (!HasKey(status, "statusId") ==> o.statusId == JStr("Unknown"))
      && (HasKey(status, "statusId") ==> Lookup(status, "statusId") == Some(o.statusId))
      && (EnglishText(status).None? ==> o.message == JStr("No message available"))
      && (EnglishText(status).Some? ==> o.message == EnglishText(status).value)
      && (!HasKey(status, "startDate") ==> (o.startDateUtc, o.startDateLocal) == UnknownTime)
      && (HasKey(status, "startDate") ==> (o.startDateUtc, o.startDateLocal) == FormatTime(parse, Lookup(status, "startDate").value))
  {
  }

  /** A missing `devices` list gives no devices; a list gives one label per
      device, in order, "Unknown Device" for a device without a name. */
  lemma NormalizedDevices(country: string, status: seq<(string, Json)>, parse: TimeParser)
    requires Normalize(country, status, parse).Ok?
    ensures var o := Normalize(country, status, parse).value;
      && (!HasKey(status, "devices") ==> o.affectedDevices == [])
      && (Lookup(status, "devices").Some? && Lookup(status, "devices").value.JArr? ==>
            var devices := Lookup(status, "devices").value.items;
            |o.affectedDevices| == |devices| &&
            forall k :: 0 <= k < |devices| ==>
              devices[k].JObj? && o.affectedDevices[k] == DeviceLabel(devices[k].fields))
  {
    var devices := Iterate(Lookup(status, "devices").GetOr(JArr([]))).value;
    DeviceLabels(devices);
  }

  /** The second piece of a split follows the first dot and runs up to the
      next dot or the end of the string. */
  lemma SecondPieceAfterFirstDot(s: string)
    requires '.' in s
    ensures |Split(s)| >= 2
    ensures var piece := Split(s)[1]; var i := |Split(s)[0]|;
      && i < |s| && s[i] == '.' && '.' !in s[..i] && '.' !in piece
      && i + 1 + |piece| <= |s| && s[i + 1..i + 1 + |piece|] == piece
      && (i + 1 + |piece| == |s| || s[i + 1 + |piece|] == '.')
  {
    SecondPieceIffDot(s);
    var parts := Split(s);
    SplitPieces(s);
    assert '.' !in parts[0] && '.' !in parts[1];
    JoinSplit(s);
    var tail := if |parts| > 2 then "." + Join(parts[2..]) else "";
    assert Join(parts[1..]) == parts[1] + tail;
    assert s == parts[0] + "." + parts[1] + tail;
    var i := |parts[0]|;
    assert s[..i] == parts[0];
    assert s[i + 1..i + 1 + |parts[1]|] == parts[1];
  }

  /** `split(".")[1]` guarded by the truthiness of the key: the empty
      string for an absent or empty key, an AttributeError for a key that is
      not a string, an IndexError for a key without a dot, and a result for
      every key with one. */
  lemma AffectedServiceCases(key: Json)
    ensures !Truthy(key) ==> AffectedService(key) == Ok("")
    ensures Truthy(key) && !key.JStr? ==> AffectedService(key) == Err(AttributeError)
    ensures key.JStr? && key.s != [] && '.' !in key.s ==> AffectedService(key) == Err(IndexError)
    ensures key.JStr? && '.' in key.s ==> AffectedService(key).Ok?
  {
    if key.JStr? {
      SecondPieceIffDot(key.s);
    }
  }

  /** For a key with a dot, the service is the dot-free text that follows
      the first dot, up to the next dot or the end of the key. */
  lemma ServiceFollowsFirstDot(key: string)
    requires '.' in key
    ensures AffectedService(JStr(key)).Ok?
    ensures var service := AffectedService(JStr(key)).value;
      '.' !in service &&
      exists i :: 0 <= i < |key| && key[i] == '.' && '.' !in key[..i] &&
                  i + 1 + |service| <= |key| && key[i + 1..i + 1 + |service|] == service &&
                  (i + 1 + |service| == |key| || key[i + 1 + |service|] == '.')
  {
    SecondPieceAfterFirstDot(key);
    var service := Split(key)[1];
    var i := |Split(key)[0]|;
    assert key[i] == '.';
  }

  /** The affected service of a record is "" for an absent or empty key and
      the piece after the first dot otherwise. */
  lemma NormalizedService(country: string, status: seq<(string, Json)>, parse: TimeParser)
    requires Normalize(country, status, parse).Ok?
    ensures var o := Normalize(country, status, parse).value;
      var key := MessageKey(status);
      && (!Truthy(key) ==> o.affectedService == "")
      && (Truthy(key) ==> key.JStr? && '.' in key.s && o.affectedService == Split(key.s)[1])
  {
    AffectedServiceCases(MessageKey(status));
    if MessageKey(status).JStr? {
      SecondPieceIffDot(MessageKey(status).s);
    }
  }

  /** The crash the code does not guard against: an outage entry whose
      devices and message texts go through but whose message key is a
      non-empty string without a dot raises IndexError. */
  lemma DotlessKeyRaises(country: string, status: seq<(string, Json)>, parse: TimeParser, key: string)
    requires Iterate(Lookup(status, "devices").GetOr(JArr([]))).Ok?
    requires Collect(Iterate(Lookup(status, "devices").GetOr(JArr([]))).value, DeviceName).Ok?
    requires Lookup(status, "message").Some? && Lookup(status, "message").value.JObj?
    requires Lookup(Lookup(status, "message").value.fields, "messages").GetOr(JObj([])).JObj?
    requires Lookup(Lookup(status, "message").value.fields, "messageKey") == Some(JStr(key))
    requires key != [] && '.' !in key
    ensures Normalize(country, status, parse) == Err(IndexError)
  {
    SecondPieceIffDot(key);
  }

  /** When the extraction goes through, every selected outage entry with a
      truthy message key has a string key with a dot: a dotless or
      non-string key anywhere among them makes the extraction raise. */
  lemma ExtractedKeysHaveDots(data: Json, target: string, parse: TimeParser)
    requires Extract(data, target, parse).Ok?
    ensures forall e :: e in Selected(data, target) && Truthy(MessageKey(e.1)) ==>
              MessageKey(e.1).JStr? && '.' in MessageKey(e.1).s
  {
    var entries := Selected(data, target);
    OneRecordPerOutageEntry(data, target, parse);
    forall e | e in entries && Truthy(MessageKey(e.1))
      ensures MessageKey(e.1).JStr? && '.' in MessageKey(e.1).s
    {
      var k :| 0 <= k < |entries| && entries[k] == e;
      NormalizedService(e.0, e.1, parse);
    }
  }

  /** The loop over two items that both go through. */
  lemma CollectTwo<T>(a: Json, b: Json, f: Json -> Result<seq<T>>)
    requires f(a).Ok? && f(b).Ok?
    ensures Collect([a, b], f) == Ok(f(a).value + f(b).value)
  {
    var items := [a, b];
    assert items[..0] == [] && items[..2] == items;
    CollectNext(items, 0, f);
    CollectNext(items, 1, f);
    assert [] + f(a).value == f(a).value;
  }

  /** The sample's outage entry, in the shape the status feed uses. */
  function SampleOutage(): Json {
    JObj([("statusType", JStr("Outage")),
          ("message", JObj([("messageKey", JStr("a.StreamingService.b"))]))])
  }

  function SampleMinor(): Json {
    JObj([("statusType", JStr("Minor"))])
  }

  function SampleJapan(): Json {
    JObj([("countryName", JStr("Japan")), ("status", JArr([SampleOutage()]))])
  }

  function SampleIndia(): Json {
    JObj([("countryName", JStr("india")), ("status", JArr([SampleMinor(), SampleOutage()]))])
  }

  function SampleDocument(): Json {
    JObj([("countries", JArr([SampleJapan(), SampleIndia()]))])
  }

  /** The record the sample's outage entry becomes. */
  function SampleReport(parse: TimeParser): Outage {
    Outage("india", JStr("Unknown"), "Unknown", "Unknown", [], "StreamingService", JStr("No message available"))
  }

  /** The key "a.StreamingService.b" names the service "StreamingService". */
  lemma SampleKey()
    ensures AffectedService(JStr("a.StreamingService.b")) == Ok("StreamingService")
  {
    var parts := ["a", "StreamingService", "b"];
    assert Join(parts) == "a.StreamingService.b";
    SplitJoin(parts);
  }

  lemma SampleRecord(parse: TimeParser)
    ensures Normalize("india", SampleOutage().fields, parse) == Ok(SampleReport(parse))
  {
    var fields := SampleOutage().fields;
    var message := JObj([("messageKey", JStr("a.StreamingService.b"))]);
    assert "devices" != "message" && "devices" != "statusType";
    assert Lookup(fields, "devices") == None;
    assert Lookup(fields, "message") == Some(message);
    assert Lookup(fields, "startDate") == None;
    assert Lookup(fields, "statusId") == None;
    assert Lookup(message.fields, "messages") == None;
    assert Lookup(message.fields, "messageKey") == Some(JStr("a.StreamingService.b"));
    SampleKey();
  }

  lemma SampleEntries(parse: TimeParser)
    ensures StatusEntry("india", SampleOutage(), parse) == Ok([SampleReport(parse)])
    ensures StatusEntry("india", SampleMinor(), parse) == Ok([])
  {
    assert LowerAscii("Outage") == "outage";
    assert LowerAscii("Minor") == "minor";
    SampleRecord(parse);
  }

  lemma SampleStatusLoop(parse: TimeParser)
    ensures Collect([SampleMinor(), SampleOutage()], StatusStep("india", parse)) == Ok([SampleReport(parse)])
  {
    SampleEntries(parse);
    CollectTwo(SampleMinor(), SampleOutage(), StatusStep("india", parse));
    assert [] + [SampleReport(parse)] == [SampleReport(parse)];
  }

  lemma SampleJapanSkipped(parse: TimeParser)
    ensures CountryEntry(SampleJapan(), "India", parse) == Ok([])
  {
    assert LowerAscii("India") == "india";
    assert LowerAscii("Japan") == "japan" != "india";
    assert Lookup(SampleJapan().fields, "countryName") == Some(JStr("Japan"));
  }

  lemma SampleIndiaReported(parse: TimeParser)
    ensures CountryEntry(SampleIndia(), "India", parse) == Ok([SampleReport(parse)])
  {
    assert LowerAscii("India") == "india";
    assert "countryName" != "status";
    assert Lookup(SampleIndia().fields, "countryName") == Some(JStr("india"));
    assert Lookup(SampleIndia().fields, "status") == Some(JArr([SampleMinor(), SampleOutage()]));
    SampleStatusLoop(parse);
  }

  lemma SampleCountryLoop(parse: TimeParser)
    ensures Collect([SampleJapan(), SampleIndia()], CountryStep("India", parse)) == Ok([SampleReport(parse)])
  {
    SampleJapanSkipped(parse);
    SampleIndiaReported(parse);
    CollectTwo(SampleJapan(), SampleIndia(), CountryStep("India", parse));
    assert [] + [SampleReport(parse)] == [SampleReport(parse)];
  }

  /** The sample document: the lower-case "india" matches the target
      "India", the other country and the minor entry are skipped, and the key
      "a.StreamingService.b" names the service "StreamingService". */
  lemma SampleExtraction(parse: TimeParser)
    ensures Extract(SampleDocument(), "India", parse) == Ok([SampleReport(parse)])
  {
    SampleCountryLoop(parse);
    var list := [SampleJapan(), SampleIndia()];
    assert Lookup(SampleDocument().fields, "countries") == Some(JArr(list));
    assert Contains(SampleDocument(), "countries") == Ok(true);
    assert Subscript(SampleDocument(), "countries") == Ok(JArr(list));
  }
}
