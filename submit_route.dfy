/**
 * The submission endpoint: it checks its configuration and its access to the
 * spreadsheet, turns the posted values into one thirteen-column row, appends
 * it, and answers 200, 403 or 500.
 *
 * The spreadsheet service, the request body parser and the clock are not
 * modelled; their results are parameters.
 */
module SubmitRoute {
  import opened JsValues
  import opened FormSchema

  /** The spreadsheet's columns, in the order the row lists them. */
  datatype Column =
    | Timestamp
    | NameColumn
    | EmailColumn
    | BusinessTypeColumn
    | ChannelsColumn
    | CountryColumn
    | BudgetColumn
    | WebsiteColumn
    | DescriptionColumn
    | MonthlyRevenueColumn
    | TargetRevenueColumn
    | ObstacleColumn
    | StartTimeColumn

  const ColumnOrder: seq<Column> := [
    Timestamp, NameColumn, EmailColumn, BusinessTypeColumn, ChannelsColumn, CountryColumn,
    BudgetColumn, WebsiteColumn, DescriptionColumn, MonthlyRevenueColumn, TargetRevenueColumn,
    ObstacleColumn, StartTimeColumn
  ]

  /** The body property a column copies from; the timestamp comes from the clock. */
  function SourceKey(c: Column): (key: Option<string>)
    ensures key.None? <==> c == Timestamp
  {
    match c
    case Timestamp => None
    case NameColumn => Some("name")
    case EmailColumn => Some("email")
    case BusinessTypeColumn => Some("businessType")
    case ChannelsColumn => Some("marketingChannels")
    case CountryColumn => Some("country")
    case BudgetColumn => Some("monthlyBudget")
    case WebsiteColumn => Some("website")
    case DescriptionColumn => Some("businessDescription")
    case MonthlyRevenueColumn => Some("monthlyRevenue")
    case TargetRevenueColumn => Some("targetRevenue")
    case ObstacleColumn => Some("obstacle")
    case StartTimeColumn => Some("startTime")
  }

  /** The posted JSON object. */
  type Body = map<string, JsValue>

  /** Destructuring a property out of the body: a missing one is `undefined`. */
  function Prop(body: Body, key: string): (v: JsValue)
    ensures key !in body ==> v == Undefined
  {
    if key in body then body[key] else Undefined
  }

  /**
   * An array of channels becomes its elements joined by ", "; anything else is
   * kept. `None` where the join throws.
   */
  function ChannelsCell(v: JsValue): (cell: Option<JsValue>)
    ensures cell.None? <==> v.Arr? && !Printable(v)
    ensures v.Arr? && Printable(v) ==> cell == Some(Str(Join(ElementStrings(v.items), ", ")))
    ensures !v.Arr? ==> cell == Some(v)
  {
    if v.Arr? then
      if Printable(v) then Some(Str(Join(ElementStrings(v.items), ", "))) else None
    else Some(v)
  }

  /** `website || 'N/A'`. */
  function WebsiteCell(v: JsValue): (cell: JsValue)
    ensures Truthy(cell)
    ensures Truthy(v) ==> cell == v
    ensures !Truthy(v) ==> cell == Str("N/A")
  {
    if Truthy(v) then v else Str("N/A")
  }

  /** `revenue?.toString() || '0'`; `None` where `toString` throws. */
  function RevenueCell(v: JsValue): (cell: Option<string>)
    ensures cell.None? <==> !Nullish(v) && !Printable(v)
    ensures cell.Some? ==> cell.value != ""
    ensures Nullish(v) ==> cell == Some("0")
    ensures v.Num? ==> cell == Some(IntToDecimal(v.n))
    ensures v.Str? ==> cell == Some(if v.s == "" then "0" else v.s)
  {
    if Nullish(v) then Some("0")
    else if !Printable(v) then None
    else
      var s := ToJsString(v);
      if s == "" then Some("0") else Some(s)
  }

  /** Building the row does not throw: the channels join and both revenue conversions succeed. */
  predicate Storable(body: Body) {
    var channels := Prop(body, "marketingChannels");
    var monthly := Prop(body, "monthlyRevenue");
    var target := Prop(body, "targetRevenue");
    (channels.Arr? ==> Printable(channels))
    && (Nullish(monthly) || Printable(monthly))
    && (Nullish(target) || Printable(target))
  }

  /** The row appended to the sheet, written as the endpoint builds it; `None` where building it throws. */
  function BuildRow(timestamp: string, body: Body): (row: Option<seq<JsValue>>)
    ensures row.Some? <==> Storable(body)
    ensures row.Some? ==> |row.value| == |ColumnOrder| == 13
  {
    var channels := ChannelsCell(Prop(body, "marketingChannels"));
    var monthly := RevenueCell(Prop(body, "monthlyRevenue"));
    var target := RevenueCell(Prop(body, "targetRevenue"));
    if channels.None? || monthly.None? || target.None? then None
    else Some([
      Str(timestamp),
      Prop(body, "name"),
      Prop(body, "email"),
      Prop(body, "businessType"),
      channels.value,
      Prop(body, "country"),
      Prop(body, "monthlyBudget"),
      WebsiteCell(Prop(body, "website")),
      Prop(body, "businessDescription"),
      Str(monthly.value),
      Str(target.value),
      Prop(body, "obstacle"),
      Prop(body, "startTime")
    ])
  }

  /** What lands in one column, column by column. */
  function Cell(c: Column, timestamp: string, body: Body): (cell: JsValue)
    requires Storable(body)
  {
    match c
    case Timestamp => Str(timestamp)
    case ChannelsColumn => ChannelsCell(Prop(body, SourceKey(c).value)).value
    case WebsiteColumn => WebsiteCell(Prop(body, SourceKey(c).value))
    case MonthlyRevenueColumn => Str(RevenueCell(Prop(body, SourceKey(c).value)).value)
    case TargetRevenueColumn => Str(RevenueCell(Prop(body, SourceKey(c).value)).value)
    case _ => Prop(body, SourceKey(c).value)
  }

  /** Where a column sits in the row. */
  function Position(c: Column): (i: nat)
    ensures i < |ColumnOrder| && ColumnOrder[i] == c
  {
    match c
    case Timestamp => 0
    case NameColumn => 1
    case EmailColumn => 2
    case BusinessTypeColumn => 3
    case ChannelsColumn => 4
    case CountryColumn => 5
    case BudgetColumn => 6
    case WebsiteColumn => 7
    case DescriptionColumn => 8
    case MonthlyRevenueColumn => 9
    case TargetRevenueColumn => 10
    case ObstacleColumn => 11
    case StartTimeColumn => 12
  }

  /** Each column's cell sits at the column's position in the row. */
  lemma RowFollowsColumns(timestamp: string, body: Body, c: Column)
    requires Storable(body)
    ensures BuildRow(timestamp, body).value[Position(c)] == Cell(c, timestamp, body)
  {
    var channels := ChannelsCell(Prop(body, "marketingChannels"));
    var monthly := RevenueCell(Prop(body, "monthlyRevenue"));
    var target := RevenueCell(Prop(body, "targetRevenue"));
    assert channels.Some? && monthly.Some? && target.Some?;
  }

  /** Properties the row reads from the body. */
  const RowKeys: set<string> := {
    "name", "email", "businessType", "marketingChannels", "country", "monthlyBudget", "website",
    "businessDescription", "monthlyRevenue", "targetRevenue", "obstacle", "startTime"
  }

  /**
   * No other property of the body reaches the row: in particular the free-text
   * `otherBusinessType` and `otherObstacle` are dropped.
   */
  lemma RowIgnoresOtherProperties(timestamp: string, body: Body, key: string, v: JsValue)
    requires key !in RowKeys
    ensures BuildRow(timestamp, body[key := v]) == BuildRow(timestamp, body)
  {
    var body' := body[key := v];
    forall k | k in RowKeys ensures Prop(body', k) == Prop(body, k) {
    }
  }

  lemma FreeTextNeverStored(timestamp: string, body: Body, otherBusinessType: JsValue, otherObstacle: JsValue)
    ensures BuildRow(timestamp, body["otherBusinessType" := otherBusinessType]["otherObstacle" := otherObstacle])
         == BuildRow(timestamp, body)
  {
    RowIgnoresOtherProperties(timestamp, body["otherBusinessType" := otherBusinessType], "otherObstacle", otherObstacle);
    RowIgnoresOtherProperties(timestamp, body, "otherBusinessType", otherBusinessType);
  }

  /** Two selected channels print as "seo, email". */
  lemma ChannelsExample()
    ensures ChannelsCell(Arr([Str("seo"), Str("email")])) == Some(Str("seo, email"))
  {
    var items := [Str("seo"), Str("email")];
    assert Printable(items[0]) && Printable(items[1]);
    assert Printable(Arr(items));
    var parts := ElementStrings(items);
    assert parts == ["seo", "email"];
    assert Join(parts, ", ") == "seo" + ", " + Join(["email"], ", ");
    assert Join(["email"], ", ") == "email";
    assert "seo" + ", " + "email" == "seo, email";
    assert ChannelsCell(Arr(items)) == Some(Str(Join(parts, ", ")));
  }

  /** Text properties land in their columns as posted. */
  lemma TextLandsAsPosted(timestamp: string, body: Body, name: string, email: string, obstacle: string, startTime: string)
    requires Storable(body)
    requires Prop(body, "name") == Str(name) && Prop(body, "email") == Str(email)
    requires Prop(body, "obstacle") == Str(obstacle) && Prop(body, "startTime") == Str(startTime)
    ensures var row := BuildRow(timestamp, body).value;
      row[0] == Str(timestamp) && row[1] == Str(name) && row[2] == Str(email)
      && row[11] == Str(obstacle) && row[12] == Str(startTime)
  {
  }

  /** An array of strings, as the form posts its channels. */
  function StrItems(names: seq<string>): (items: seq<JsValue>)
    ensures |items| == |names|
    ensures forall i :: 0 <= i < |names| ==> items[i] == Str(names[i])
  {
    seq(|names|, i requires 0 <= i < |names| => Str(names[i]))
  }

  lemma StrItemsPrint(names: seq<string>)
    ensures Printable(Arr(StrItems(names)))
    ensures ElementStrings(StrItems(names)) == names
  {
    var printed := ElementStrings(StrItems(names));
    forall i | 0 <= i < |names| ensures printed[i] == names[i] {
    }
  }

  /**
   * What the form itself posts, string channels and numeric revenues, always
   * builds a row.
   */
  lemma FormPostIsStorable(body: Body, channels: seq<string>, monthly: int, target: int)
    requires Prop(body, "marketingChannels") == Arr(StrItems(channels))
    requires Prop(body, "monthlyRevenue") == Num(monthly) && Prop(body, "targetRevenue") == Num(target)
    ensures Storable(body)
  {
    StrItemsPrint(channels);
  }

  /** Posted channels land as the chosen names joined by ", ". */
  lemma ChannelsLandJoined(timestamp: string, body: Body, channels: seq<string>)
    requires Prop(body, "marketingChannels") == Arr(StrItems(channels))
    ensures ChannelsCell(Prop(body, "marketingChannels")) == Some(Str(Join(channels, ", ")))
    ensures Storable(body) ==> BuildRow(timestamp, body).value[4] == Str(Join(channels, ", "))
  {
    StrItemsPrint(channels);
  }

  /** A posted revenue lands as a decimal string that reads back as the number posted. */
  lemma RevenuesReadBack(timestamp: string, body: Body, monthly: int, target: int)
    requires Prop(body, "monthlyRevenue") == Num(monthly) && Prop(body, "targetRevenue") == Num(target)
    ensures RevenueCell(Num(monthly)) == Some(IntToDecimal(monthly)) && DecimalToInt(IntToDecimal(monthly)) == monthly
    ensures RevenueCell(Num(target)) == Some(IntToDecimal(target)) && DecimalToInt(IntToDecimal(target)) == target
    ensures Storable(body) ==> var row := BuildRow(timestamp, body).value;
      row[9] == Str(IntToDecimal(monthly)) && row[10] == Str(IntToDecimal(target))
  {
    IntDecimalRoundTrip(monthly);
    IntDecimalRoundTrip(target);
  }

  /** A body without revenues stores "0" in both revenue columns. */
  lemma MissingRevenuesAreZero(timestamp: string, body: Body)
    requires "monthlyRevenue" !in body && "targetRevenue" !in body
    ensures RevenueCell(Prop(body, "monthlyRevenue")) == Some("0")
    ensures Storable(body) ==> BuildRow(timestamp, body).value[9] == Str("0") && BuildRow(timestamp, body).value[10] == Str("0")
  {
  }

  /** The spreadsheet's answer to the access check. */
  datatype AccessCheck = Accessible | AccessError(status: Option<int>)

  /** The spreadsheet's answer to the append. */
  datatype AppendResult = AppendResponse(status: int) | AppendError

  datatype ResponseBody = SuccessBody | ErrorBody(error: string)

  /** The HTTP answer, and the row handed to the append call if one was made. */
  datatype PostOutcome = PostOutcome(status: int, body: ResponseBody, appended: Option<seq<JsValue>>)

  const ConfigurationError := "Server configuration error"
  const PermissionDenied := "Permission denied. Please check service account permissions."
  const SubmitFailed := "Failed to submit form"

  /**
   * The endpoint: a missing spreadsheet id answers 500 before anything else;
   * a 403 from the access check answers 403; any other failure (access, an
   * unreadable body, a row that cannot be built, an append that throws or
   * answers other than 200) answers 500; otherwise 200.
   */
  function Post(spreadsheetId: Option<string>, access: AccessCheck, request: Option<Body>,
                timestamp: string, append: AppendResult): (r: PostOutcome)
    ensures r.status == 200 || r.status == 403 || r.status == 500
    ensures r.status == 200 <==> r.body == SuccessBody
    ensures r.status == 403 ==> r.body == ErrorBody(PermissionDenied) && r.appended.None?
  {
    if spreadsheetId.None? || spreadsheetId.value == "" then
      PostOutcome(500, ErrorBody(ConfigurationError), None)
    else if access.AccessError? then
      if access.status == Some(403) then PostOutcome(403, ErrorBody(PermissionDenied), None)
      else PostOutcome(500, ErrorBody(SubmitFailed), None)
    else if request.None? then
      PostOutcome(500, ErrorBody(SubmitFailed), None)
    else
      var row := BuildRow(timestamp, request.value);
      if row.None? then PostOutcome(500, ErrorBody(SubmitFailed), None)
      else if append == AppendResponse(200) then PostOutcome(200, SuccessBody, Some(row.value))
      else PostOutcome(500, ErrorBody(SubmitFailed), Some(row.value))
  }

  /** `SPREADSHEET_ID` is set and not empty. */
  function Configured(spreadsheetId: Option<string>): (c: bool)
    ensures spreadsheetId.None? || spreadsheetId == Some("") ==> !c
    ensures c ==> |spreadsheetId.value| > 0
  {
    spreadsheetId.Some? && spreadsheetId.value != ""
  }

  /** When each status is chosen. */
  lemma PostStatus(spreadsheetId: Option<string>, access: AccessCheck, request: Option<Body>,
                   timestamp: string, append: AppendResult)
    ensures var r := Post(spreadsheetId, access, request, timestamp, append);
      && (!Configured(spreadsheetId) ==>
            r.status == 500 && r.body == ErrorBody(ConfigurationError) && r.appended.None?)
      && (r.status == 403 <==> Configured(spreadsheetId) && access == AccessError(Some(403)))
      && (r.status == 200 <==>
            Configured(spreadsheetId) && access == Accessible && request.Some? && Storable(request.value)
            && append == AppendResponse(200))
  {
  }

  /**
   * A row is handed to the spreadsheet exactly when configuration, access and
   * body are all fine and the row could be built.
   */
  lemma PostAppendsBuiltRow(spreadsheetId: Option<string>, access: AccessCheck, request: Option<Body>,
                            timestamp: string, append: AppendResult)
    ensures var r := Post(spreadsheetId, access, request, timestamp, append);
      && (r.appended.Some? <==>
            Configured(spreadsheetId) && access == Accessible && request.Some? && Storable(request.value))
      && (r.appended.Some? ==> BuildRow(timestamp, request.value) == r.appended)
  {
  }

  /**
   * A revenue parsed as an object with its own `toString` makes the
   * conversion throw: the endpoint answers 500 and appends nothing, even with
   * the sheet reachable and the append ready to succeed.
   */
  lemma OwnToStringFails(timestamp: string)
    ensures var body := map["monthlyRevenue" := Obj(map["toString" := Num(1)])];
      Post(Some("sheet"), Accessible, Some(body), timestamp, AppendResponse(200))
        == PostOutcome(500, ErrorBody(SubmitFailed), None)
  {
    var body := map["monthlyRevenue" := Obj(map["toString" := Num(1)])];
    assert !Storable(body);
  }
}
