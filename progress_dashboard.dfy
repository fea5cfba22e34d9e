/** The launch-progress dashboard: a fixed task catalogue generated from a plan,
    completion toggling, overall and per-category statistics, the category filter,
    the timeline grouping, and the view template and task list mirrored into the
    browser's local storage (modelled as a map). */
module ProgressDashboard {
  import opened Common
  import opened Business

  datatype Category = Setup | Materials | Marketing | Operations | Growth
  {
    /** The category's key as the source spells it (also the filter value). */
    function Key(): string
    {
      match this
      case Setup => "setup"
      case Materials => "materials"
      case Marketing => "marketing"
      case Operations => "operations"
      case Growth => "growth"
    }
  }

  /** The order in which the category configuration lists the categories. */
  const CategoryOrder: seq<Category> := [Setup, Materials, Marketing, Operations, Growth]

  datatype Task = Task(id: string, title: string, description: string, category: Category, completed: bool)

  // ---------------------------------------------------------------------------
  // The catalogue

  /** `plan.workforce?.length || 1`: the headcount shown in the hiring task. */
  function Headcount(plan: BusinessPlan): (n: nat)
    ensures n >= 1
    ensures plan.workforce == None ==> n == 1
    ensures plan.workforce.Some? && |plan.workforce.value| == 0 ==> n == 1
    ensures plan.workforce.Some? && |plan.workforce.value| > 0 ==> n == |plan.workforce.value|
  {
    match plan.workforce
    case None => 1
    case Some(w) => if |w| == 0 then 1 else |w|
  }

  function ShopSize(plan: BusinessPlan): string
  {
    match plan.location
    case None => "suitable"
    case Some(l) => OrElse(l.shopSize, "suitable")
  }

  function AreaType(plan: BusinessPlan): string
  {
    match plan.location
    case None => "target area"
    case Some(l) => OrElse(l.areaType, "target area")
  }

  /** The category of the catalogue entry at position `i`: blocks of 4, 3, 4, 3, 3. */
  function BlockCategory(i: nat): Category
  {
    if i < 4 then Setup
    else if i < 7 then Materials
    else if i < 11 then Marketing
    else if i < 14 then Operations
    else Growth
  }

  /** Where a category's block starts in the catalogue. */
  function BlockStart(c: Category): nat
  {
    match c
    case Setup => 0
    case Materials => 4
    case Marketing => 7
    case Operations => 11
    case Growth => 14
  }

  /** A task id: the category key, a dash and the one-digit position inside the block. */
  function TaskId(c: Category, n: nat): (id: string)
    requires 1 <= n <= 9
    ensures |id| == |c.Key()| + 2 && id[|id| - 1] == DigitChar(n)
  {
    c.Key() + "-" + [DigitChar(n)]
  }

  lemma KeyInjective(c: Category, d: Category)
    requires c.Key() == d.Key()
    ensures c == d
  {
  }

  lemma TaskIdInjective(c: Category, n: nat, d: Category, m: nat)
    requires 1 <= n <= 9 && 1 <= m <= 9
    requires TaskId(c, n) == TaskId(d, m)
    ensures c == d && n == m
  {
    var a := TaskId(c, n);
    assert DigitValue(a[|a| - 1]) == n && DigitValue(a[|a| - 1]) == m;
    assert c.Key() == a[..|a| - 2] == d.Key();
    KeyInjective(c, d);
  }

  const TaskTitles: seq<string> := [
    "Register business/GSTIN", "Open business bank account", "Finalize location", "Complete shop setup",
    "Identify primary suppliers", "Place first order", "Set up inventory tracking",
    "Create social media accounts", "Design marketing materials", "List on Google My Business", "Plan launch offers",
    "Hire initial staff", "Create pricing list", "Set up billing system",
    "Reach 50 customers", "Get first 10 reviews", "Start delivery service"
  ]

  /** The fixed descriptions; entries 2 and 11 are replaced by the plan-dependent phrases. */
  const FixedDescriptions: seq<string> := [
    "Complete legal registration and obtain GST number", "Set up dedicated account for business transactions",
    "", "Install furniture, signage, and equipment",
    "Finalize 2-3 reliable suppliers for raw materials", "Order initial inventory from selected suppliers",
    "Create system to track stock levels",
    "Set up Instagram, WhatsApp Business profiles", "Create banners, visiting cards, flyers",
    "Create GMB profile for local visibility", "Design opening discounts and promotions",
    "", "Finalize product/service pricing", "Install POS or billing software",
    "Build initial customer base", "Collect customer reviews on Google", "Expand with home delivery option"
  ]

  function TaskDescription(plan: BusinessPlan, i: nat): string
    requires i < 17
  {
    if i == 2 then "Find " + ShopSize(plan) + " space in " + AreaType(plan)
    else if i == 11 then "Recruit " + NatToString(Headcount(plan)) + " team member(s)"
    else FixedDescriptions[i]
  }

  function CatalogueEntry(plan: BusinessPlan, i: nat): (t: Task)
    requires i < 17
    ensures t.category == BlockCategory(i) && !t.completed
    ensures t.id == TaskId(BlockCategory(i), i - BlockStart(BlockCategory(i)) + 1)
  {
    var c := BlockCategory(i);
    Task(TaskId(c, i - BlockStart(c) + 1), TaskTitles[i], TaskDescription(plan, i), c, false)
  }

  /** The seventeen-task catalogue, every task open, ids pairwise distinct. */
  function GenerateTasks(plan: BusinessPlan): (r: seq<Task>)
    ensures |r| == 17
    ensures forall i :: 0 <= i < |r| ==> r[i].category == BlockCategory(i) && !r[i].completed
    ensures forall i, j :: 0 <= i < j < |r| ==> r[i].id != r[j].id
  {
    var r := seq(17, i requires 0 <= i < 17 => CatalogueEntry(plan, i));
    forall i, j | 0 <= i < j < |r| ensures r[i].id != r[j].id {
      if r[i].id == r[j].id {
        TaskIdInjective(BlockCategory(i), i - BlockStart(BlockCategory(i)) + 1,
                        BlockCategory(j), j - BlockStart(BlockCategory(j)) + 1);
      }
    }
    r
  }

  /** A plan without location advice gets the documented fallback phrase for the shop task. */
  lemma LocationFallback(plan: BusinessPlan)
    requires plan.location == None
    ensures GenerateTasks(plan)[2].description == "Find suitable space in target area"
  {
    var r := GenerateTasks(plan);
    assert r[2] == CatalogueEntry(plan, 2);
    assert r[2].description == TaskDescription(plan, 2);
    LocationPhrase(plan);
  }

  /** The shop task falls back to "suitable" and "target area" whether the location advice
      is missing or present with both texts empty. */
  lemma LocationPhrase(plan: BusinessPlan)
    requires plan.location == None ||
             (plan.location.Some? && plan.location.value.shopSize == "" && plan.location.value.areaType == "")
    ensures TaskDescription(plan, 2) == "Find suitable space in target area"
  {
    assert ShopSize(plan) == "suitable" && AreaType(plan) == "target area";
  }

  /** A plan without (or with an empty) workforce asks to recruit one team member. */
  lemma HeadcountFallback(plan: BusinessPlan)
    requires plan.workforce == None || plan.workforce == Some([])
    ensures GenerateTasks(plan)[11].description == "Recruit 1 team member(s)"
  {
    var r := GenerateTasks(plan);
    assert r[11] == CatalogueEntry(plan, 11);
    assert r[11].description == TaskDescription(plan, 11);
    HeadcountPhrase(plan);
  }

  lemma HeadcountPhrase(plan: BusinessPlan)
    requires plan.workforce == None || plan.workforce == Some([])
    ensures TaskDescription(plan, 11) == "Recruit 1 team member(s)"
  {
    assert NatToString(1) == "1";
  }

  // ---------------------------------------------------------------------------
  // Toggling and counting

  function ToggleTask(tasks: seq<Task>, id: string): (r: seq<Task>)
    ensures |r| == |tasks|
    ensures forall i :: 0 <= i < |tasks| ==>
              r[i].id == tasks[i].id && r[i].title == tasks[i].title &&
              r[i].description == tasks[i].description && r[i].category == tasks[i].category &&
              r[i].completed == (if tasks[i].id == id then !tasks[i].completed else tasks[i].completed)
  {
    if tasks == [] then []
    else
      var t := tasks[0];
      [if t.id == id then t.(completed := !t.completed) else t] + ToggleTask(tasks[1..], id)
  }

  predicate HasId(tasks: seq<Task>, id: string)
  {
    exists i :: 0 <= i < |tasks| && tasks[i].id == id
  }

  lemma ToggleUnknownIsNoop(tasks: seq<Task>, id: string)
    requires !HasId(tasks, id)
    ensures ToggleTask(tasks, id) == tasks
  {
    var r := ToggleTask(tasks, id);
    assert forall i :: 0 <= i < |tasks| ==> r[i] == tasks[i];
  }

  lemma ToggleTwiceRestores(tasks: seq<Task>, id: string)
    ensures ToggleTask(ToggleTask(tasks, id), id) == tasks
  {
    var r := ToggleTask(ToggleTask(tasks, id), id);
    assert forall i :: 0 <= i < |tasks| ==> r[i] == tasks[i];
  }

  function CompletedCount(tasks: seq<Task>): (n: nat)
    ensures n <= |tasks|
    ensures n == |tasks| <==> forall i :: 0 <= i < |tasks| ==> tasks[i].completed
    ensures n == 0 <==> forall i :: 0 <= i < |tasks| ==> !tasks[i].completed
  {
    if tasks == [] then 0
    else (if tasks[0].completed then 1 else 0) + CompletedCount(tasks[1..])
  }

  /** Toggling a task whose id occurs once moves the completed count by exactly one. */
  lemma {:induction false} ToggleChangesCountByOne(tasks: seq<Task>, k: nat)
    requires k < |tasks|
    requires forall j :: 0 <= j < |tasks| && j != k ==> tasks[j].id != tasks[k].id
    ensures CompletedCount(ToggleTask(tasks, tasks[k].id)) ==
              if tasks[k].completed then CompletedCount(tasks) - 1 else CompletedCount(tasks) + 1
  {
    var id := tasks[k].id;
    var r := ToggleTask(tasks, id);
    if k == 0 {
      ToggleUnknownIsNoop(tasks[1..], id);
      assert r[1..] == ToggleTask(tasks[1..], id);
    } else {
      ToggleChangesCountByOne(tasks[1..], k - 1);
      assert r[1..] == ToggleTask(tasks[1..], id);
      assert r[0] == tasks[0];
    }
  }

  /** `completed / total * 100`, or 0 for an empty list. Kept unrounded. */
  function ProgressPercent(tasks: seq<Task>): (p: real)
    ensures 0.0 <= p <= 100.0
    ensures |tasks| == 0 ==> p == 0.0
    ensures p == 100.0 <==> |tasks| > 0 && forall i :: 0 <= i < |tasks| ==> tasks[i].completed
  {
    if |tasks| > 0 then
      ShareBounds(CompletedCount(tasks), |tasks|);
      (CompletedCount(tasks) as real / |tasks| as real) * 100.0
    else 0.0
  }

  /** A share `part / whole` of a positive whole, as a percentage, lies in [0, 100] and
      is 100 only for the whole. */
  lemma ShareBounds(part: nat, whole: nat)
    requires 0 < whole && part <= whole
    ensures 0.0 <= (part as real / whole as real) * 100.0 <= 100.0
    ensures (part as real / whole as real) * 100.0 == 100.0 <==> part == whole
  {
    var q := part as real / whole as real;
    var w := whole as real;
    assert q * w == part as real;
    if part == whole {
      assert q == 1.0;
    } else {
      assert part as real < w;
      assert q < 1.0;
    }
    assert 0.0 <= q;
  }

  /** The "Complete!" badge. */
  predicate ShowsCompleteBadge(tasks: seq<Task>)
  {
    ProgressPercent(tasks) == 100.0
  }

  // ---------------------------------------------------------------------------
  // Category statistics and the filter

  /** `tasks.filter(t => t.category === c)`. */
  function OfCategory(tasks: seq<Task>, c: Category): (r: seq<Task>)
    ensures |r| <= |tasks|
    ensures forall t :: t in r <==> t in tasks && t.category == c
  {
    if tasks == [] then []
    else (if tasks[0].category == c then [tasks[0]] else []) + OfCategory(tasks[1..], c)
  }

  /** Filtering keeps the original order: it distributes over concatenation. */
  lemma {:induction false} OfCategoryAppend(a: seq<Task>, b: seq<Task>, c: Category)
    ensures OfCategory(a + b, c) == OfCategory(a, c) + OfCategory(b, c)
    decreases |a|
  {
    if a == [] {
      assert a + b == b;
    } else {
      assert (a + b)[1..] == a[1..] + b;
      OfCategoryAppend(a[1..], b, c);
    }
  }

  datatype CategoryStat = CategoryStat(category: Category, total: nat, completed: nat, percent: real)

  function StatOf(tasks: seq<Task>, c: Category): (s: CategoryStat)
    ensures s.category == c && s.total == |OfCategory(tasks, c)|
    ensures s.completed == CompletedCount(OfCategory(tasks, c)) && s.completed <= s.total
    ensures 0.0 <= s.percent <= 100.0
    ensures s.total == 0 ==> s.percent == 0.0
    ensures s.percent == 100.0 <==> s.total > 0 && s.completed == s.total
  {
    var ts := OfCategory(tasks, c);
    CategoryStat(c, |ts|, CompletedCount(ts), ProgressPercent(ts))
  }

  /** Counting per category adds up to the whole list: every task has one category. */
  lemma {:induction false} CategoryTotalsSum(tasks: seq<Task>)
    ensures |OfCategory(tasks, Setup)| + |OfCategory(tasks, Materials)| + |OfCategory(tasks, Marketing)|
            + |OfCategory(tasks, Operations)| + |OfCategory(tasks, Growth)| == |tasks|
  {
    if tasks != [] {
      CategoryTotalsSum(tasks[1..]);
    }
  }

  function CategoryStats(tasks: seq<Task>): (r: seq<CategoryStat>)
    ensures |r| == |CategoryOrder|
    ensures forall k :: 0 <= k < |r| ==> r[k] == StatOf(tasks, CategoryOrder[k])
    ensures r[0].total + r[1].total + r[2].total + r[3].total + r[4].total == |tasks|
  {
    CategoryTotalsSum(tasks);
    seq(|CategoryOrder|, k requires 0 <= k < |CategoryOrder| => StatOf(tasks, CategoryOrder[k]))
  }

  /** The category whose key is `key`, if any. */
  function CategoryOfKey(key: string): (r: Option<Category>)
    ensures r.Some? ==> r.value.Key() == key
    ensures r.None? ==> forall c: Category :: c.Key() != key
  {
    if key == "setup" then Some(Setup)
    else if key == "materials" then Some(Materials)
    else if key == "marketing" then Some(Marketing)
    else if key == "operations" then Some(Operations)
    else if key == "growth" then Some(Growth)
    else None
  }

  /** The list the checklist view shows for a filter value. */
  function FilteredTasks(tasks: seq<Task>, filter: string): (r: seq<Task>)
    ensures filter == "all" ==> r == tasks
    ensures filter != "all" ==> forall t :: t in r <==> t in tasks && t.category.Key() == filter
    ensures filter != "all" && CategoryOfKey(filter).Some? ==> r == OfCategory(tasks, CategoryOfKey(filter).value)
  {
    if filter == "all" then tasks
    else match CategoryOfKey(filter)
      case Some(c) => OfCategory(tasks, c)
      case None => []
  }

  /** Clicking a category card: the active card switches back to "all". */
  function ClickCard(filter: string, c: Category): (r: string)
    ensures filter == c.Key() ==> r == "all"
    ensures filter != c.Key() ==> r == c.Key()
  {
    if filter == c.Key() then "all" else c.Key()
  }

  lemma ClickCardTwice(filter: string, c: Category)
    requires filter == "all" || filter == c.Key()
    ensures ClickCard(ClickCard(filter, c), c) == filter
  {
  }

  // ---------------------------------------------------------------------------
  // Timeline bands

  datatype Band = Band(name: string, categories: seq<Category>)

  const TimelineBands: seq<Band> := [
    Band("Week 1: Setup", [Setup]),
    Band("Week 2-3: Resources", [Materials, Operations]),
    Band("Week 4: Marketing", [Marketing]),
    Band("Month 2+: Growth", [Growth])
  ]

  /** The one band a category belongs to. */
  function BandOf(c: Category): (k: nat)
    ensures k < |TimelineBands| && c in TimelineBands[k].categories
    ensures forall j :: 0 <= j < |TimelineBands| && c in TimelineBands[j].categories ==> j == k
  {
    match c
    case Setup => 0
    case Materials => 1
    case Operations => 1
    case Marketing => 2
    case Growth => 3
  }

  /** `tasks.filter(t => band.categories.includes(t.category))`. */
  function BandTasks(tasks: seq<Task>, b: Band): (r: seq<Task>)
    ensures forall t :: t in r <==> t in tasks && t.category in b.categories
  {
    if tasks == [] then []
    else (if tasks[0].category in b.categories then [tasks[0]] else []) + BandTasks(tasks[1..], b)
  }

  /** Every task is shown in exactly one band, so the bands' lists add up to the list of tasks. */
  lemma {:induction false} BandsPartitionTasks(tasks: seq<Task>)
    ensures |BandTasks(tasks, TimelineBands[0])| + |BandTasks(tasks, TimelineBands[1])|
            + |BandTasks(tasks, TimelineBands[2])| + |BandTasks(tasks, TimelineBands[3])| == |tasks|
  {
    if tasks != [] {
      BandsPartitionTasks(tasks[1..]);
      var c := tasks[0].category;
      assert c in TimelineBands[BandOf(c)].categories;
      forall j | 0 <= j < 4
        ensures |BandTasks(tasks, TimelineBands[j])| ==
                |BandTasks(tasks[1..], TimelineBands[j])| + (if j == BandOf(c) then 1 else 0)
      {
      }
    }
  }

  /** The timeline draws a task in the band of its category and in no other. */
  lemma TaskInItsBandOnly(tasks: seq<Task>, t: Task, j: nat)
    requires t in tasks && j < |TimelineBands|
    ensures t in BandTasks(tasks, TimelineBands[j]) <==> j == BandOf(t.category)
  {
  }

  // ---------------------------------------------------------------------------
  // Templates and storage

  datatype DashboardTemplate = Checklist | Milestones | Timeline | Metrics
  {
    function Name(): string
    {
      match this
      case Checklist => "checklist"
      case Milestones => "milestones"
      case Timeline => "timeline"
      case Metrics => "metrics"
    }
  }

  /** Which view `renderTemplate` draws for a template value; an unknown value draws nothing. */
  function TemplateOfName(name: string): (r: Option<DashboardTemplate>)
    ensures r.Some? ==> r.value.Name() == name
    ensures forall t: DashboardTemplate :: t.Name() == name ==> r == Some(t)
  {
    if name == "checklist" then Some(Checklist)
    else if name == "milestones" then Some(Milestones)
    else if name == "timeline" then Some(Timeline)
    else if name == "metrics" then Some(Metrics)
    else None
  }

  /** What the dashboard keeps in local storage: template names and task lists. */
  datatype Stored = Text(text: string) | TaskList(tasks: seq<Task>)

  function TemplateKey(planId: string): string { "dashboard-template-" + planId }
  function ProgressKey(planId: string): string { "progress-" + planId }

  lemma KeysDiffer(a: string, b: string)
    ensures TemplateKey(a) != ProgressKey(b)
  {
    assert TemplateKey(a)[0] != ProgressKey(b)[0];
  }

  /** The template on mount: a stored non-empty value, else "checklist". */
  function LoadTemplate(storage: map<string, Stored>, planId: string): (t: string)
    ensures t != ""
    ensures TemplateKey(planId) !in storage ==> t == "checklist"
    ensures TemplateKey(planId) in storage && storage[TemplateKey(planId)].Text? && storage[TemplateKey(planId)].text != "" ==>
              t == storage[TemplateKey(planId)].text
    ensures TemplateKey(planId) in storage && !(storage[TemplateKey(planId)].Text? && storage[TemplateKey(planId)].text != "") ==>
              t == "checklist"
  {
    var k := TemplateKey(planId);
    if k in storage && storage[k].Text? && storage[k].text != "" then storage[k].text else "checklist"
  }

  /** Stored tasks win over a freshly generated catalogue. */
  function LoadTasks(storage: map<string, Stored>, plan: BusinessPlan): (r: seq<Task>)
    ensures ProgressKey(plan.idea.id) in storage && storage[ProgressKey(plan.idea.id)].TaskList? ==>
              r == storage[ProgressKey(plan.idea.id)].tasks
    ensures ProgressKey(plan.idea.id) !in storage ==> r == GenerateTasks(plan)
  {
    var k := ProgressKey(plan.idea.id);
    if k in storage && storage[k].TaskList? then storage[k].tasks else GenerateTasks(plan)
  }

  /** The save effect: tasks are written only when there is at least one. */
  function SaveTasks(storage: map<string, Stored>, planId: string, tasks: seq<Task>): (s: map<string, Stored>)
    ensures |tasks| == 0 ==> s == storage
    ensures |tasks| > 0 ==> s == storage[ProgressKey(planId) := TaskList(tasks)]
  {
    if |tasks| > 0 then storage[ProgressKey(planId) := TaskList(tasks)] else storage
  }

  /** A stored template is what the next mount restores, and the stored tasks are untouched. */
  lemma TemplateRoundTrip(storage: map<string, Stored>, plan: BusinessPlan, t: DashboardTemplate)
    ensures LoadTemplate(storage[TemplateKey(plan.idea.id) := Text(t.Name())], plan.idea.id) == t.Name()
    ensures LoadTasks(storage[TemplateKey(plan.idea.id) := Text(t.Name())], plan) == LoadTasks(storage, plan)
  {
    KeysDiffer(plan.idea.id, plan.idea.id);
  }

  class Dashboard {
    const plan: BusinessPlan
    var tasks: seq<Task>
    var filter: string
    var template: string
    var storage: map<string, Stored>

    /** Storage mirrors the state, as the two save effects keep it. */
    ghost predicate Valid()
      reads this
    {
      && TemplateKey(plan.idea.id) in storage
      && storage[TemplateKey(plan.idea.id)] == Text(template)
      && (|tasks| > 0 ==> ProgressKey(plan.idea.id) in storage && storage[ProgressKey(plan.idea.id)] == TaskList(tasks))
    }

    /** Mounting: load the template and tasks, then let the effects save them. */
    constructor Mount(plan: BusinessPlan, stored: map<string, Stored>)
      ensures Valid()
      ensures this.plan == plan && filter == "all"
      ensures template == LoadTemplate(stored, plan.idea.id)
      ensures tasks == LoadTasks(stored, plan)
      ensures storage == SaveTasks(stored[TemplateKey(plan.idea.id) := Text(template)], plan.idea.id, tasks)
    {
      this.plan := plan;
      filter := "all";
      var t := LoadTemplate(stored, plan.idea.id);
      template := t;
      var s := stored[TemplateKey(plan.idea.id) := Text(t)];
      var ts := LoadTasks(stored, plan);
      tasks := ts;
      KeysDiffer(plan.idea.id, plan.idea.id);
      storage := SaveTasks(s, plan.idea.id, ts);
    }

    method Toggle(id: string)
      requires Valid()
      modifies this
      ensures Valid()
      ensures tasks == ToggleTask(old(tasks), id)
      ensures template == old(template) && filter == old(filter)
      ensures storage == SaveTasks(old(storage), plan.idea.id, tasks)
    {
      tasks := ToggleTask(tasks, id);
      KeysDiffer(plan.idea.id, plan.idea.id);
      storage := SaveTasks(storage, plan.idea.id, tasks);
    }

    /** Choosing a template stores it and never touches its tasks. */
    method SelectTemplate(t: DashboardTemplate)
      requires Valid()
      modifies this
      ensures Valid()
      ensures template == t.Name()
      ensures tasks == old(tasks) && filter == old(filter)
      ensures storage == old(storage)[TemplateKey(plan.idea.id) := Text(t.Name())]
      ensures LoadTemplate(storage, plan.idea.id) == t.Name()
    {
      template := t.Name();
      KeysDiffer(plan.idea.id, plan.idea.id);
      storage := storage[TemplateKey(plan.idea.id) := Text(template)];
    }

    method ClickCategoryCard(c: Category)
      requires Valid()
      modifies this
      ensures Valid()
      ensures filter == ClickCard(old(filter), c)
      ensures tasks == old(tasks) && template == old(template) && storage == old(storage)
    {
      filter := ClickCard(filter, c);
    }

    /** Reset after the confirmation dialog: regenerate the catalogue. The entry removed from
        storage is written again by the save effect, now holding the fresh catalogue. */
    method Reset(confirmed: bool)
      requires Valid()
      modifies this
      ensures Valid()
      ensures !confirmed ==> tasks == old(tasks) && storage == old(storage)
      ensures confirmed ==> tasks == GenerateTasks(plan)
      ensures confirmed ==> storage == (old(storage) - {ProgressKey(plan.idea.id)})[ProgressKey(plan.idea.id) := TaskList(tasks)]
      ensures template == old(template) && filter == old(filter)
    {
      if confirmed {
        tasks := GenerateTasks(plan);
        KeysDiffer(plan.idea.id, plan.idea.id);
        var removed := storage - {ProgressKey(plan.idea.id)};
        storage := SaveTasks(removed, plan.idea.id, tasks);
      }
    }
  }
}
