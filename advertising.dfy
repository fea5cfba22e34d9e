/** The advertising widget of the dashboard: a campaign's return on what it spent, the
    active campaigns, the totals over every campaign, the badge colour, and the
    add-campaign form with its check. */
module Advertising {
  import opened Common

  datatype Campaign = Campaign(
    id: string,
    platform: string,
    campaignName: string,
    budget: real,
    spent: real,
    impressions: nat,
    clicks: nat,
    conversions: nat,
    status: string)

  /** The revenue each conversion is taken to bring in. */
  const RevenuePerConversion: real := 1000.0

  /** `calculateROI`: 0 when nothing was spent, otherwise the gain over what was spent as
      a percentage of it. */
  function Roi(c: Campaign): (r: real)
    ensures c.spent == 0.0 ==> r == 0.0
    ensures c.spent != 0.0 ==> r * c.spent == (c.conversions as real * RevenuePerConversion - c.spent) * 100.0
  {
    if c.spent == 0.0 then 0.0
    else (c.conversions as real * RevenuePerConversion - c.spent) / c.spent * 100.0
  }

  /** With a positive spend the return is positive exactly when the conversions bring in
      more than was spent, and it is -100% when nothing converted. */
  lemma RoiSign(c: Campaign)
    requires c.spent > 0.0
    ensures Roi(c) > 0.0 <==> c.conversions as real * RevenuePerConversion > c.spent
    ensures Roi(c) == 0.0 <==> c.conversions as real * RevenuePerConversion == c.spent
    ensures c.conversions == 0 ==> Roi(c) == -100.0
  {
    var gain := c.conversions as real * RevenuePerConversion - c.spent;
    assert Roi(c) == gain / c.spent * 100.0;
    if gain > 0.0 {
      assert gain / c.spent > 0.0;
    } else if gain < 0.0 {
      assert gain / c.spent < 0.0;
      if c.conversions == 0 {
        assert gain == -c.spent;
        assert gain / c.spent == -1.0;
      }
    }
  }

  /** The ROI badge uses the "default" style exactly when the return is positive. */
  predicate BadgeIsDefault(c: Campaign)
  {
    Roi(c) > 0.0
  }

  /** A campaign that spent nothing gets the "secondary" badge. */
  lemma NothingSpentIsSecondary(c: Campaign)
    requires c.spent == 0.0
    ensures !BadgeIsDefault(c)
  {
  }

  predicate IsActive(c: Campaign) { c.status == "active" }

  /** `activeCampaigns`, in their order. */
  function ActiveCampaigns(cs: seq<Campaign>): (r: seq<Campaign>)
    ensures |r| <= |cs|
    ensures forall c :: c in r <==> c in cs && c.status == "active"
  {
    FilterMembers(cs, IsActive);
    Filter(cs, IsActive)
  }

  /** The active campaigns keep the order in which the campaigns were loaded. */
  lemma ActiveCampaignsAppend(a: seq<Campaign>, b: seq<Campaign>)
    ensures ActiveCampaigns(a + b) == ActiveCampaigns(a) + ActiveCampaigns(b)
  {
    FilterAppend(a, b, IsActive);
  }

  function BudgetOf(c: Campaign): real { c.budget }
  function SpentOf(c: Campaign): real { c.spent }
  function ConversionsOf(c: Campaign): real { c.conversions as real }

  /** The three totals run over every campaign: the active ones and the others. */
  function TotalBudget(cs: seq<Campaign>): real { SumOf(cs, BudgetOf) }
  function TotalSpent(cs: seq<Campaign>): real { SumOf(cs, SpentOf) }
  function TotalConversions(cs: seq<Campaign>): real { SumOf(cs, ConversionsOf) }

  /** Each total is the active campaigns' total plus the others'. */
  lemma TotalsIncludeInactive(cs: seq<Campaign>)
    ensures TotalBudget(cs) == TotalBudget(ActiveCampaigns(cs)) + TotalBudget(Filter(cs, c => !IsActive(c)))
    ensures TotalSpent(cs) == TotalSpent(ActiveCampaigns(cs)) + TotalSpent(Filter(cs, c => !IsActive(c)))
    ensures TotalConversions(cs) ==
            TotalConversions(ActiveCampaigns(cs)) + TotalConversions(Filter(cs, c => !IsActive(c)))
  {
    SumOfSplit(cs, BudgetOf, IsActive, c => !IsActive(c));
    SumOfSplit(cs, SpentOf, IsActive, c => !IsActive(c));
    SumOfSplit(cs, ConversionsOf, IsActive, c => !IsActive(c));
  }

  /** A paused campaign still counts in the totals but is not listed as active. */
  lemma PausedCampaignStillCounts(active: seq<Campaign>, paused: Campaign)
    requires forall k :: 0 <= k < |active| ==> IsActive(active[k])
    requires !IsActive(paused)
    ensures ActiveCampaigns(active + [paused]) == active
    ensures TotalBudget(active + [paused]) == TotalBudget(active) + paused.budget
  {
    FilterAppend(active, [paused], IsActive);
    FilterAllOrNone(active, IsActive);
    FilterCons(paused, [], IsActive);
    SumOfAppend(active, [paused], BudgetOf);
    SumOfCons(paused, [], BudgetOf);
    assert [paused] + [] == [paused];
  }

  // ---------------------------------------------------------------------------
  // Adding a campaign

  datatype CampaignForm = CampaignForm(platform: string, campaignName: string, budget: string, startDate: string)

  function BlankForm(today: string): (f: CampaignForm)
    ensures f.platform == "" && f.campaignName == "" && f.budget == "" && f.startDate == today
  {
    CampaignForm("", "", "", today)
  }

  /** Platform, name and budget must be filled in (untrimmed). */
  predicate CanAdd(form: CampaignForm)
  {
    form.platform != "" && form.campaignName != "" && form.budget != ""
  }

  /** The row inserted: the user's id, the form's fields, the budget as `parseFloat` reads
      the typed text, and status "active". */
  datatype NewCampaign = NewCampaign(
    userId: string,
    platform: string,
    campaignName: string,
    budget: Number,
    startDate: string,
    status: string)

  function InsertRow(userId: string, form: CampaignForm): (row: NewCampaign)
    ensures row.status == "active" && row.userId == userId
    ensures row.platform == form.platform && row.campaignName == form.campaignName
    ensures row.startDate == form.startDate
    ensures row.budget == ParseFloat(form.budget)
  {
    NewCampaign(userId, form.platform, form.campaignName, ParseFloat(form.budget), form.startDate, "active")
  }

  /** The check looks only at whether the budget was typed: any typed budget is sent, as
      NaN exactly when it does not start with a number, and as the leading whole number
      when one is followed by text that cannot continue it; so "5,000" is sent as 5 and
      "abc" as NaN. */
  lemma BudgetAsParsed(userId: string, form: CampaignForm, n: nat, rest: string)
    requires form.platform != "" && form.campaignName != ""
    ensures form.budget != "" ==> CanAdd(form)
    ensures InsertRow(userId, form).budget.NaN? <==> !StartsLiteral(Unsigned(TrimStart(form.budget)))
    ensures form.budget == NatToString(n) + rest &&
            (rest == [] || !(IsDigit(rest[0]) || rest[0] == '.' || rest[0] == 'e' || rest[0] == 'E')) ==>
              InsertRow(userId, form).budget == Num(n as real)
    ensures form.budget == "5,000" ==> CanAdd(form) && InsertRow(userId, form).budget == Num(5.0)
    ensures form.budget == "abc" ==> CanAdd(form) && InsertRow(userId, form).budget.NaN?
  {
    ParseFloatOfTypedText();
    if rest == [] || !(IsDigit(rest[0]) || rest[0] == '.' || rest[0] == 'e' || rest[0] == 'E') {
      ParseFloatOfNat(n, rest);
    }
  }

  /** `handleAddCampaign`, given whether the insert succeeded and today's date: the row it
      sends, if the check passes, and the dialog afterwards. */
  function HandleAdd(d: AddDialog<CampaignForm>, userId: string, insertOk: bool, today: string)
    : (r: (Option<NewCampaign>, AddDialog<CampaignForm>))
    ensures r.0.Some? <==> CanAdd(d.form)
    ensures r.0.Some? ==> r.0.value == InsertRow(userId, d.form)
    ensures !CanAdd(d.form) || !insertOk ==> r.1 == d
    ensures CanAdd(d.form) && insertOk ==> !r.1.open && r.1.form == BlankForm(today)
  {
    SubmitAdd(d, CanAdd(d.form), InsertRow(userId, d.form), insertOk, BlankForm(today))
  }
}
