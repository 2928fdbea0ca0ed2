/** The project detail page: its loading / not-found / loaded states, the
    funded percentage shown on the transparency dashboard, and the
    fallbacks for an empty timeline and for no open expert roles. */
module ProjectDetail {
  import opened Wrappers
  import opened Types
  import MockData

  /** `Math.round`: the nearest integer, halves rounded towards +infinity. */
  function JsRound(x: real): (n: int)
    ensures n as real - 0.5 <= x < n as real + 0.5
  {
    (x + 0.5).Floor
  }

  function Min(a: int, b: int): int {
    if a <= b then a else b
  }

  /** `Math.min(100, Math.round(raised / budget * 100))`, in exact arithmetic. */
  function PercentFunded(raised: int, budget: int): (pct: int)
    requires budget != 0
    ensures pct <= 100
  {
    Min(100, JsRound(raised as real / budget as real * 100.0))
  }

  /** Flooring an exact quotient is integer division. */
  lemma FloorOfQuotient(n: int, d: int)
    requires d > 0
    ensures (n as real / d as real).Floor == n / d
  {
    var q, m := n / d, n % d;
    assert n == q * d + m && 0 <= m < d;
    var x := n as real / d as real;
    assert x * d as real == n as real;
    assert n as real == q as real * d as real + m as real;
    assert q as real * d as real <= x * d as real < (q + 1) as real * d as real;
    assert q as real <= x < (q + 1) as real;
  }

  /** raised / budget * 100 + 1/2 as one quotient of integers. */
  lemma ShiftedRatio(raised: int, budget: int)
    requires budget > 0
    ensures raised as real / budget as real * 100.0 + 0.5 == (200 * raised + budget) as real / (2 * budget) as real
  {
    var r, b := raised as real, budget as real;
    var lhs := r / b * 100.0 + 0.5;
    var rhs := (200.0 * r + b) / (2.0 * b);
    assert (r / b) * b == r;
    assert lhs * (2.0 * b) == 200.0 * ((r / b) * b) + b;
    assert rhs * (2.0 * b) == 200.0 * r + b;
    assert lhs == (lhs * (2.0 * b)) / (2.0 * b);
    assert rhs == (rhs * (2.0 * b)) / (2.0 * b);
    assert lhs == rhs;
    assert (200 * raised + budget) as real == 200.0 * r + b;
    assert (2 * budget) as real == 2.0 * b;
  }

  /** For a positive budget the rounding is integer division:
      round(100 r / b) = (200 r + b) div 2b. */
  lemma PercentFundedIntegerForm(raised: int, budget: int)
    requires budget > 0
    ensures PercentFunded(raised, budget) == Min(100, (200 * raised + budget) / (2 * budget))
  {
    ShiftedRatio(raised, budget);
    FloorOfQuotient(200 * raised + budget, 2 * budget);
  }

  lemma MulStep(x: int, y: int, d: int)
    requires d > 0 && x > y
    ensures x * d >= y * d + d
  {
    assert x * d - y * d - d == (x - y - 1) * d;
  }

  lemma DivMonotone(a: int, b: int, d: int)
    requires d > 0 && a <= b
    ensures a / d <= b / d
  {
    var qa, qb := a / d, b / d;
    if qa > qb {
      MulStep(qa, qb, d);
      assert false;
    }
  }

  lemma DivAtLeast(n: int, d: int, k: int)
    requires d > 0 && n >= k * d
    ensures n / d >= k
  {
    if n / d < k {
      MulStep(k, n / d, d);
      assert false;
    }
  }

  /** A fully funded (or over-funded) project shows exactly 100 percent. */
  lemma FullyFundedShowsHundred(raised: int, budget: int)
    requires 0 < budget <= raised
    ensures PercentFunded(raised, budget) == 100
  {
    PercentFundedIntegerForm(raised, budget);
    DivAtLeast(200 * raised + budget, 2 * budget, 100);
  }

  /** With a positive budget and a non-negative amount raised the
      percentage lies in 0..100 and never drops as more is raised. */
  lemma PercentFundedBoundedAndMonotone(raised: int, raised': int, budget: int)
    requires budget > 0 && 0 <= raised <= raised'
    ensures 0 <= PercentFunded(raised, budget) <= PercentFunded(raised', budget) <= 100
  {
    PercentFundedIntegerForm(raised, budget);
    PercentFundedIntegerForm(raised', budget);
    DivMonotone(0, 200 * raised + budget, 2 * budget);
    DivMonotone(200 * raised + budget, 200 * raised' + budget, 2 * budget);
  }

  /** Pins the percentage down from the integer form: `q` is shown when
      `q` is at most 100 and 2b * q <= 200 r + b < 2b * (q + 1). */
  lemma PercentFundedIs(raised: int, budget: int, q: int)
    requires budget > 0 && q <= 100
    requires 2 * budget * q <= 200 * raised + budget < 2 * budget * (q + 1)
    ensures PercentFunded(raised, budget) == q
  {
    PercentFundedIntegerForm(raised, budget);
    var n, d := 200 * raised + budget, 2 * budget;
    DivAtLeast(n, d, q);
    if n / d > q {
      MulStep(n / d, q, d);
      assert false;
    }
  }

  /** The percentage as the page computes it for any budget: a zero budget
      divides by zero, which JavaScript turns into Infinity (clamped to 100)
      when something was raised and into NaN or -Infinity otherwise; those
      two non-numbers are `None`. */
  function DisplayedPercent(raised: int, budget: int): (pct: Option<int>)
    ensures budget != 0 ==> pct == Some(PercentFunded(raised, budget))
    ensures budget == 0 ==> (pct.Some? <==> raised > 0) && (pct.Some? ==> pct.value == 100)
  {
    if budget != 0 then Some(PercentFunded(raised, budget))
    else if raised > 0 then Some(100)
    else None
  }

  const LoadingMessage := "Loading Project Data..."
  const NotFoundMessage := "Project not found."
  const NoUpdatesMessage := "No updates posted yet."
  const AllRolesFilledMessage := "All expert roles currently filled!"

  /** The "Project Timeline" panel: the updates in order, or the
      no-updates message. */
  datatype UpdatesPanel = Timeline(updates: seq<ProjectUpdate>) | NoUpdatesYet {
    /** The text shown in place of the timeline, if any. */
    function Message(): (m: Option<string>)
      ensures m.Some? <==> this == NoUpdatesYet
      ensures m.Some? ==> m.value == NoUpdatesMessage
    {
      if NoUpdatesYet? then Some(NoUpdatesMessage) else None
    }
  }

  /** The "Expertise Needed" panel: the open roles in order, or the
      all-filled message. */
  datatype ExpertsPanel = OpenRoles(needs: seq<ExpertNeed>) | AllRolesFilled {
    /** The text shown in place of the role list, if any. */
    function Message(): (m: Option<string>)
      ensures m.Some? <==> this == AllRolesFilled
      ensures m.Some? ==> m.value == AllRolesFilledMessage
    {
      if AllRolesFilled? then Some(AllRolesFilledMessage) else None
    }
  }

  datatype DetailView = DetailView(
    project: Project,
    statusLabel: string,
    percentFunded: Option<int>,
    timeline: UpdatesPanel,
    experts: ExpertsPanel)

  datatype PageView = LoadingView | NotFoundView | LoadedView(detail: DetailView) {
    /** The full-page message shown instead of the dashboard, if any. */
    function Message(): (m: Option<string>)
      ensures m.Some? <==> !LoadedView?
      ensures LoadingView? ==> m == Some(LoadingMessage)
      ensures NotFoundView? ==> m == Some(NotFoundMessage)
    {
      match this
      case LoadingView => Some(LoadingMessage)
      case NotFoundView => Some(NotFoundMessage)
      case LoadedView(_) => None
    }
  }

  function UpdatesFeed(updates: Option<seq<ProjectUpdate>>): (panel: UpdatesPanel)
    ensures panel == NoUpdatesYet <==> updates.None? || updates.value == []
    ensures panel.Timeline? ==> updates == Some(panel.updates) && panel.updates != []
  {
    if updates.Some? && |updates.value| > 0 then Timeline(updates.value) else NoUpdatesYet
  }

  function ExpertNeedsList(needs: Option<seq<ExpertNeed>>): (panel: ExpertsPanel)
    ensures panel == AllRolesFilled <==> needs.None? || needs.value == []
    ensures panel.OpenRoles? ==> needs == Some(panel.needs) && panel.needs != []
  {
    if needs.Some? && |needs.value| > 0 then OpenRoles(needs.value) else AllRolesFilled
  }

  /** The page for a given `loading` flag and `project` slot: loading wins,
      then a missing project, and only then the dashboard. */
  function Render(loading: bool, project: Option<Project>): (v: PageView)
    ensures v.LoadingView? <==> loading
    ensures v.NotFoundView? <==> !loading && project.None?
    ensures v.LoadedView? ==>
              && project == Some(v.detail.project)
              && v.detail.statusLabel == v.detail.project.status.Value()
              && v.detail.percentFunded == DisplayedPercent(v.detail.project.raised, v.detail.project.budget)
              && v.detail.timeline == UpdatesFeed(v.detail.project.updates)
              && v.detail.experts == ExpertNeedsList(v.detail.project.expertNeeds)
  {
    if loading then LoadingView
    else if project.None? then NotFoundView
    else
      var p := project.value;
      LoadedView(DetailView(p, p.status.Value(), DisplayedPercent(p.raised, p.budget),
                            UpdatesFeed(p.updates), ExpertNeedsList(p.expertNeeds)))
  }

  /** The page once the lookup for `id` has resolved. */
  function PageFor(id: string): (v: PageView)
    ensures v.NotFoundView? <==> forall p :: p in MockData.MockProjects ==> p.id != id
    ensures !v.LoadingView?
  {
    Render(false, MockData.GetProjectById(id))
  }

  /** The detail page's state: the looked-up project and the loading flag,
      written only by the effect that runs when the route's id is known. */
  class DetailPage {
    var project: Option<Project>
    var loading: bool

    constructor ()
      ensures project.None? && loading
      ensures View() == LoadingView
    {
      project := None;
      loading := true;
    }

    /** The page the current state renders to. */
    function View(): (v: PageView)
      reads this
      ensures v.LoadingView? <==> loading
      ensures v.NotFoundView? <==> !loading && project.None?
      ensures v.LoadedView? ==> project == Some(v.detail.project)
    {
      Render(loading, project)
    }

    /** The effect on `projectId`: with no id, or an empty (falsy) one,
        nothing happens and the page keeps its state; with a non-empty id
        the lookup's result is stored and loading ends. */
    method LoadProject(projectId: Option<string>)
      modifies this
      ensures (projectId.None? || projectId.value == "") ==> project == old(project) && loading == old(loading)
      ensures projectId.Some? && projectId.value != "" ==> project == MockData.GetProjectById(projectId.value) && !loading
      ensures projectId.Some? && projectId.value != "" ==> View() == PageFor(projectId.value)
    {
      if projectId.Some? && projectId.value != "" {
        var data := MockData.GetProjectById(projectId.value);
        project := data;
        loading := false;
      }
    }
  }

  /** Project "1" shows 70 percent, two updates and two open roles. */
  lemma FixturePageOne()
    ensures PageFor("1").LoadedView?
    ensures PageFor("1").detail.percentFunded == Some(70)
    ensures PageFor("1").detail.timeline.Timeline? && |PageFor("1").detail.timeline.updates| == 2
    ensures PageFor("1").detail.experts.OpenRoles? && |PageFor("1").detail.experts.needs| == 2
  {
    MockData.ListedProjectsAreFoundById(0);
    PercentFundedIs(350000, 500000, 70);
  }

  /** Project "2" shows 38 percent: 37.5 is rounded up. */
  lemma FixturePageTwo()
    ensures PageFor("2").LoadedView? && PageFor("2").detail.percentFunded == Some(38)
  {
    MockData.ListedProjectsAreFoundById(1);
    PercentFundedIs(45000, 120000, 38);
  }

  /** Project "3" is fully funded: 100 percent, with the no-updates and the
      all-roles-filled messages. */
  lemma FixturePageThree()
    ensures PageFor("3").LoadedView?
    ensures PageFor("3").detail.percentFunded == Some(100)
    ensures PageFor("3").detail.timeline == NoUpdatesYet
    ensures PageFor("3").detail.experts == AllRolesFilled
    ensures PageFor("3").detail.timeline.Message() == Some("No updates posted yet.")
    ensures PageFor("3").detail.experts.Message() == Some("All expert roles currently filled!")
  {
    MockData.ListedProjectsAreFoundById(2);
    FullyFundedShowsHundred(250000, 250000);
  }

  /** Project "4" shows 8 percent and no updates yet. */
  lemma FixturePageFour()
    ensures PageFor("4").LoadedView? && PageFor("4").detail.percentFunded == Some(8)
    ensures PageFor("4").detail.timeline == NoUpdatesYet
  {
    MockData.ListedProjectsAreFoundById(3);
    PercentFundedIs(120000, 1500000, 8);
  }

  /** An unknown id such as "999" ends in the not-found message. */
  lemma UnknownIdNotFound()
    ensures PageFor("999") == NotFoundView
    ensures PageFor("999").Message() == Some("Project not found.")
  {
    MockData.FixtureLookups();
  }
}
