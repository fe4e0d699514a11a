/**
 Creative plans and their revision log (services/creative_plans.py), and the generation jobs that
 pin one revision (the creation half of services/generation_jobs.py). A plan's id is its position.
 */
module CreativePlans {
  import opened Common
  import opened JobRows

  datatype PlanType = MainImage | VideoScript

  datatype PlanStatus = Drafted | Selected | Archived

  datatype Revision = Revision(version: int, title: string, content: Content, rationale: string, status: PlanStatus,
                               changedBy: UserId)

  datatype Plan = Plan(productId: nat, planType: PlanType, title: string, content: Content, rationale: string,
                       status: PlanStatus, version: int, revisions: seq<Revision>)

  datatype PlanError = PlanNotFound | PlanVersionConflict(current: int) | PlanArchived | SelectedCannotArchive

  // ----- operations on one plan -------------------------------------------------

  /** `_add_revision`: a copy of the plan as it is now. */
  function WithRevision(p: Plan, actor: UserId): Plan {
    p.(revisions := p.revisions + [Revision(p.version, p.title, p.content, p.rationale, p.status, actor)])
  }

  function NewPlan(productId: nat, planType: PlanType, content: Content, actor: UserId): Plan {
    WithRevision(Plan(productId, planType, content.title, content, content.rationale, Drafted, 1, []), actor)
  }

  function Edited(p: Plan, content: Content, actor: UserId): Plan {
    WithRevision(p.(content := content, title := content.title, rationale := content.rationale,
                 version := p.version + 1), actor)
  }

  function WithStatus(p: Plan, status: PlanStatus, actor: UserId): Plan {
    WithRevision(p.(status := status, version := p.version + 1), actor)
  }

  // ----- operations on the table ------------------------------------------------

  type Plans = seq<Plan>

  function GeneratePlans(plans: Plans, productId: nat, planType: PlanType, items: seq<Content>, actor: UserId): Plans
    decreases |items|
  {
    if items == [] then plans
    else GeneratePlans(plans + [NewPlan(productId, planType, items[0], actor)], productId, planType, items[1..], actor)
  }

  predicate Owned(plans: Plans, productId: nat, id: nat) {
    id < |plans| && plans[id].productId == productId
  }

  function UpdatePlan(plans: Plans, productId: nat, id: nat, expected: int, content: Content, actor: UserId)
    : Result<Plans, PlanError>
  {
    if !Owned(plans, productId, id) then Err(PlanNotFound)
    else if plans[id].version != expected then Err(PlanVersionConflict(plans[id].version))
    else if plans[id].status == Archived then Err(PlanArchived)
    else Ok(plans[id := Edited(plans[id], content, actor)])
  }

  /** The other selected plans of the same product and type: the select in front of the loop. */
  predicate Rival(plans: Plans, i: nat, id: nat)
    requires i < |plans| && id < |plans|
  {
    && i != id && plans[i].status == Selected
    && plans[i].productId == plans[id].productId && plans[i].planType == plans[id].planType
  }

  /** The table after a committed status change. */
  function StatusChanged(plans: Plans, id: nat, status: PlanStatus, actor: UserId): (r: Plans)
    requires id < |plans|
  {
    seq(|plans|, i requires 0 <= i < |plans| =>
      if i == id then WithStatus(plans[i], status, actor)
      else if status == Selected && Rival(plans, i, id) then WithStatus(plans[i], Drafted, actor)
      else plans[i])
  }

  function SetStatus(plans: Plans, productId: nat, id: nat, expected: int, status: PlanStatus, actor: UserId)
    : Result<Plans, PlanError>
  {
    if !Owned(plans, productId, id) then Err(PlanNotFound)
    else if plans[id].version != expected then Err(PlanVersionConflict(plans[id].version))
    else if status == plans[id].status then Ok(plans)
    else if plans[id].status == Archived then Err(PlanArchived)
    else if status == Archived && plans[id].status == Selected then Err(SelectedCannotArchive)
    else Ok(StatusChanged(plans, id, status, actor))
  }

  // ----- invariants -------------------------------------------------------------

  /**
   Revisions are the versions 1..n, once each, and the newest is the plan as it is; title and rationale
   are the content's.
   */
  ghost predicate RevisionsOk(p: Plan) {
    && p.title == p.content.title && p.rationale == p.content.rationale
    && |p.revisions| == p.version >= 1
    && (forall k | 0 <= k < |p.revisions| :: p.revisions[k].version == k + 1)
    && var last := p.revisions[|p.revisions| - 1];
       last.title == p.title && last.content == p.content && last.rationale == p.rationale && last.status == p.status
  }

  /** No revision follows an archived one, and none goes from selected to archived directly. */
  ghost predicate HistoryOk(p: Plan) {
    forall k | 0 <= k < |p.revisions| - 1 ::
      p.revisions[k].status != Archived &&
      !(p.revisions[k].status == Selected && p.revisions[k + 1].status == Archived)
  }

  ghost predicate OneSelected(plans: Plans) {
    forall i, j | 0 <= i < j < |plans| && plans[i].status == Selected && plans[j].status == Selected ::
      plans[i].productId != plans[j].productId || plans[i].planType != plans[j].planType
  }

  ghost predicate PlansInv(plans: Plans) {
    OneSelected(plans) && forall i | 0 <= i < |plans| :: RevisionsOk(plans[i]) && HistoryOk(plans[i])
  }

  /** A later table has every plan at its place, of the same product and type, with a longer log. */
  ghost predicate Extends(before: Plans, after: Plans) {
    && |before| <= |after|
    && forall i | 0 <= i < |before| ::
         && after[i].productId == before[i].productId && after[i].planType == before[i].planType
         && before[i].revisions <= after[i].revisions
         && (before[i].status == Archived ==> after[i] == before[i])
  }

  lemma RevisedOk(p: Plan, q: Plan, actor: UserId)
    requires RevisionsOk(p) && HistoryOk(p) && p.status != Archived
    requires q.revisions == p.revisions && q.version == p.version + 1
    requires q.title == q.content.title && q.rationale == q.content.rationale
    requires !(p.status == Selected && q.status == Archived)
    ensures RevisionsOk(WithRevision(q, actor)) && HistoryOk(WithRevision(q, actor))
  {
    var r := WithRevision(q, actor);
    assert r.revisions[|p.revisions| - 1] == p.revisions[|p.revisions| - 1];
    forall k | 0 <= k < |r.revisions| - 1
      ensures r.revisions[k].status != Archived
      ensures !(r.revisions[k].status == Selected && r.revisions[k + 1].status == Archived)
    {
      if k < |p.revisions| - 1 {
        assert r.revisions[k] == p.revisions[k] && r.revisions[k + 1] == p.revisions[k + 1];
      }
    }
  }

  lemma {:induction false} GenerateInv(plans: Plans, productId: nat, planType: PlanType, items: seq<Content>,
                                       actor: UserId)
    requires PlansInv(plans)
    ensures var r := GeneratePlans(plans, productId, planType, items, actor);
            PlansInv(r) && Extends(plans, r) && |r| == |plans| + |items|
    decreases |items|
  {
    if items != [] {
      var next := plans + [NewPlan(productId, planType, items[0], actor)];
      assert forall i | 0 <= i < |plans| :: next[i] == plans[i];
      GenerateInv(next, productId, planType, items[1..], actor);
    }
  }

  lemma UpdateInv(plans: Plans, productId: nat, id: nat, expected: int, content: Content, actor: UserId)
    requires PlansInv(plans)
    ensures var r := UpdatePlan(plans, productId, id, expected, content, actor);
            r.Ok? ==> PlansInv(r.value) && Extends(plans, r.value)
  {
    if UpdatePlan(plans, productId, id, expected, content, actor).Ok? {
      var p := plans[id];
      RevisedOk(p, p.(content := content, title := content.title, rationale := content.rationale,
                version := p.version + 1), actor);
    }
  }

  /** Each row of a status change keeps its own log in order. */
  lemma ChangedRow(plans: Plans, id: nat, status: PlanStatus, actor: UserId, i: nat)
    requires id < |plans| && i < |plans| && RevisionsOk(plans[i]) && HistoryOk(plans[i])
    requires plans[id].status != Archived && !(plans[id].status == Selected && status == Archived)
    ensures var q := StatusChanged(plans, id, status, actor)[i];
            && RevisionsOk(q) && HistoryOk(q)
            && q.productId == plans[i].productId && q.planType == plans[i].planType
            && plans[i].revisions <= q.revisions
            && (plans[i].status == Archived ==> q == plans[i])
  {
    if i == id {
      RevisedOk(plans[i], plans[i].(status := status, version := plans[i].version + 1), actor);
    } else if status == Selected && Rival(plans, i, id) {
      RevisedOk(plans[i], plans[i].(status := Drafted, version := plans[i].version + 1), actor);
    }
  }

  lemma ChangedKeepsOneSelected(plans: Plans, id: nat, status: PlanStatus, actor: UserId)
    requires id < |plans| && OneSelected(plans)
    ensures OneSelected(StatusChanged(plans, id, status, actor))
  {
  }

  lemma SetStatusInv(plans: Plans, productId: nat, id: nat, expected: int, status: PlanStatus, actor: UserId)
    requires PlansInv(plans)
    ensures var r := SetStatus(plans, productId, id, expected, status, actor);
            r.Ok? ==> PlansInv(r.value) && Extends(plans, r.value) && r.value[id].status == status
  {
    var r := SetStatus(plans, productId, id, expected, status, actor);
    if r.Ok? && status != plans[id].status {
      ChangedKeepsOneSelected(plans, id, status, actor);
      forall i | 0 <= i < |plans|
        ensures RevisionsOk(r.value[i]) && HistoryOk(r.value[i])
        ensures r.value[i].productId == plans[i].productId && r.value[i].planType == plans[i].planType
        ensures plans[i].revisions <= r.value[i].revisions && (plans[i].status == Archived ==> r.value[i] == plans[i])
      {
        ChangedRow(plans, id, status, actor, i);
      }
    }
  }

  // ----- what one request does, for its sender ------------------------------------

  /** One revision more, the newest, by this user. */
  ghost predicate Revised(p: Plan, q: Plan, actor: UserId) {
    && q.version == p.version + 1 && q.productId == p.productId && q.planType == p.planType
    && q.revisions == p.revisions + [Revision(q.version, q.title, q.content, q.rationale, q.status, actor)]
  }

  /**
   An edit is accepted exactly for a plan of the product, at the version that was read, unless it is archived.
   Then the plan says what was sent, and nothing else changes.
   */
  lemma EditDecides(plans: Plans, productId: nat, id: nat, expected: int, content: Content, actor: UserId)
    ensures var r := UpdatePlan(plans, productId, id, expected, content, actor);
            && (r.Ok? <==>
                && id < |plans| && plans[id].productId == productId
                && plans[id].version == expected && plans[id].status != Archived)
            && (r.Err? ==>
                  r.error == if id >= |plans| || plans[id].productId != productId then PlanNotFound
                             else if plans[id].version != expected then PlanVersionConflict(plans[id].version)
                             else PlanArchived)
            && (r.Ok? ==>
                  && |r.value| == |plans| && (forall i | 0 <= i < |plans| && i != id :: r.value[i] == plans[i])
                  && var p, q := plans[id], r.value[id];
                  && q.content == content && q.title == content.title && q.rationale == content.rationale
                  && q.status == p.status && Revised(p, q, actor))
  {
  }

  /** Only these lose their selection: the other selected plans of the same product and type. */
  predicate LosesTo(p: Plan, winner: Plan) {
    p.status == Selected && p.productId == winner.productId && p.planType == winner.planType
  }

  /**
   A status change is accepted exactly for a plan of the product at the version that was read, unless it
   is archived or would be archived while selected; asking for the status it has is accepted always. Then
   the plan has that status, what a selection displaces is a draft again, and no plan's content changes.
   */
  lemma StatusDecides(plans: Plans, productId: nat, id: nat, expected: int, status: PlanStatus, actor: UserId)
    ensures var r := SetStatus(plans, productId, id, expected, status, actor);
            && (r.Ok? <==>
                && id < |plans| && plans[id].productId == productId && plans[id].version == expected
                && (status == plans[id].status ||
                    (plans[id].status != Archived && !(plans[id].status == Selected && status == Archived))))
            && (r.Err? ==>
                  r.error == if id >= |plans| || plans[id].productId != productId then PlanNotFound
                             else if plans[id].version != expected then PlanVersionConflict(plans[id].version)
                             else if plans[id].status == Archived then PlanArchived
                             else SelectedCannotArchive)
            && (r.Ok? && status == plans[id].status ==> r.value == plans)
            && (r.Ok? && status != plans[id].status ==>
                  && |r.value| == |plans|
                  && forall i | 0 <= i < |plans| ::
                       var p, q := plans[i], r.value[i];
                       var displaced := i != id && status == Selected && LosesTo(p, plans[id]);
                       if i != id && !displaced then q == p
                       else
                         && q.status == (if i == id then status else Drafted)
                         && q.content == p.content && q.title == p.title && q.rationale == p.rationale
                         && Revised(p, q, actor))
  {
  }

  /** Its first revision is the plan as it was generated. */
  predicate FirstDraft(p: Plan, productId: nat, planType: PlanType, item: Content, actor: UserId) {
    && p.productId == productId && p.planType == planType
    && p.content == item && p.title == item.title && p.rationale == item.rationale
    && p.status == Drafted && p.version == 1
    && p.revisions == [Revision(1, item.title, item, item.rationale, Drafted, actor)]
  }

  /** Generation adds one draft for each item, in order, and leaves the other plans alone. */
  lemma {:induction false} GenerateDecides(plans: Plans, productId: nat, planType: PlanType, items: seq<Content>,
                                           actor: UserId)
    ensures var r := GeneratePlans(plans, productId, planType, items, actor);
            && plans <= r && |r| == |plans| + |items|
            && forall k | 0 <= k < |items| :: FirstDraft(r[|plans| + k], productId, planType, items[k], actor)
    decreases |items|
  {
    if items != [] {
      var next := plans + [NewPlan(productId, planType, items[0], actor)];
      GenerateDecides(next, productId, planType, items[1..], actor);
      var r := GeneratePlans(plans, productId, planType, items, actor);
      assert plans <= next;
      forall k | 0 <= k < |items|
        ensures FirstDraft(r[|plans| + k], productId, planType, items[k], actor)
      {
        if k == 0 {
          assert r[|plans|] == next[|plans|];
        } else {
          assert r[|plans| + k] == r[|next| + (k - 1)] && items[1..][k - 1] == items[k];
        }
      }
    }
  }

  // ----- jobs that pin a revision -----------------------------------------------

  /** A creation request; `parameters` is None when the size or duration is rejected. */
  datatype JobRequest = JobRequest(productId: nat, planId: nat, planVersion: int, key: string,
                                   parameters: Option<string>)

  datatype JobCreateError =
    | ProductMissing | KeyConflict | NoSuchPlan | NotSelected | PlanChanged(current: int) | ParametersInvalid

  /** `earlier` holds every table that was committed before the present one. */
  datatype Studio = Studio(products: set<nat>, plans: Plans, earlier: seq<Plans>, jobs: map<string, Order>)

  function KindFor(t: PlanType): JobKind {
    if t == MainImage then Image else Video
  }

  /** The order a new job is created with: the plan as it was read, under the version it had then. */
  function OrderFor(seen: Plans, q: JobRequest, maxAttempts: int): Order
    requires q.planId < |seen|
  {
    var p := seen[q.planId];
    Order(q.productId, q.planId, p.version, KindFor(p.planType), p.title, p.content, maxAttempts)
  }

  /** A job with the requested key: the same request, or a conflict. */
  function Existing(s: Studio, q: JobRequest): Result<(Studio, Order, bool), JobCreateError>
    requires q.key in s.jobs
  {
    var o := s.jobs[q.key];
    if o.productId != q.productId || o.planId != q.planId || o.planVersion != q.planVersion then Err(KeyConflict)
    else Ok((s, o, false))
  }

  /**
   Returns the order of the job and whether it is new. The transaction locks no plan: it reads the table of
   its snapshot, `seen`, and may not see a job that was just created (`keySeen`). Then the unique key
   refuses its insert, and it answers as it would have at first.
   */
  function CreateJob(s: Studio, seen: Plans, keySeen: bool, q: JobRequest, maxAttempts: int)
    : Result<(Studio, Order, bool), JobCreateError>
  {
    if q.productId !in s.products then Err(ProductMissing)
    else if q.key in s.jobs && keySeen then Existing(s, q)
    else if !Owned(seen, q.productId, q.planId) then Err(NoSuchPlan)
    else if seen[q.planId].status != Selected then Err(NotSelected)
    else if seen[q.planId].version != q.planVersion then Err(PlanChanged(seen[q.planId].version))
    else if q.parameters.None? then Err(ParametersInvalid)
    else if q.key in s.jobs then Existing(s, q)
    else
      var o := OrderFor(seen, q, maxAttempts);
      Ok((s.(jobs := s.jobs[q.key := o]), o, true))
  }

  /** The revision an order names exists, was selected, and says what the order's snapshot says. */
  ghost predicate Pinned(plans: Plans, o: Order) {
    && Owned(plans, o.productId, o.planId)
    && (o.kind == Image <==> plans[o.planId].planType == MainImage)
    && 1 <= o.planVersion <= |plans[o.planId].revisions|
    && var r := plans[o.planId].revisions[o.planVersion - 1];
       r.version == o.planVersion && r.status == Selected && r.title == o.title && r.content == o.content
  }

  /** A table that may have been read a while ago. */
  ghost predicate Earlier(before: Plans, after: Plans) {
    PlansInv(before) && Extends(before, after)
  }

  ghost predicate StudioInv(s: Studio) {
    && PlansInv(s.plans)
    && (forall i | 0 <= i < |s.earlier| :: Earlier(s.earlier[i], s.plans))
    && forall key | key in s.jobs :: Pinned(s.plans, s.jobs[key])
  }

  lemma PinSurvives(before: Plans, after: Plans, o: Order)
    requires Pinned(before, o) && Extends(before, after)
    ensures Pinned(after, o)
  {
    var i := o.planId;
    assert before[i].revisions <= after[i].revisions;
    assert after[i].revisions[o.planVersion - 1] == before[i].revisions[o.planVersion - 1];
  }

  // ----- runs -------------------------------------------------------------------

  datatype Request =
    | Generate(productId: nat, planType: PlanType, items: seq<Content>, actor: UserId)
    | Edit(productId: nat, id: nat, expected: int, content: Content, actor: UserId)
    | ChangeStatus(productId: nat, id: nat, expected: int, status: PlanStatus, actor: UserId)
    | StartJob(request: JobRequest, maxAttempts: int, readAt: nat, keySeen: bool)

  /** The table a transaction reads that took its snapshot as the `i`-th table was current. */
  function TableAt(s: Studio, i: nat): Plans {
    if i < |s.earlier| then s.earlier[i] else s.plans
  }

  function WithPlans(s: Studio, plans: Plans): Studio {
    s.(plans := plans, earlier := s.earlier + [s.plans])
  }

  /** A rejected request changes nothing. */
  function Serve(s: Studio, q: Request): Studio {
    match q
    case Generate(productId, planType, items, actor) =>
      if productId in s.products then WithPlans(s, GeneratePlans(s.plans, productId, planType, items, actor)) else s
    case Edit(productId, id, expected, content, actor) =>
      (match UpdatePlan(s.plans, productId, id, expected, content, actor)
       case Ok(plans) => WithPlans(s, plans)
       case Err(_) => s)
    case ChangeStatus(productId, id, expected, status, actor) =>
      (match SetStatus(s.plans, productId, id, expected, status, actor)
       case Ok(plans) => WithPlans(s, plans)
       case Err(_) => s)
    case StartJob(request, maxAttempts, readAt, keySeen) =>
      (match CreateJob(s, TableAt(s, readAt), keySeen, request, maxAttempts) case Ok(r) => r.0 case Err(_) => s)
  }

  function ServeAll(s: Studio, requests: seq<Request>): Studio
    decreases |requests|
  {
    if requests == [] then s else ServeAll(Serve(s, requests[0]), requests[1..])
  }

  lemma ServeExtends(s: Studio, q: Request)
    requires PlansInv(s.plans)
    ensures var t := Serve(s, q); PlansInv(t.plans) && Extends(s.plans, t.plans) && t.products == s.products
  {
    match q
    case Generate(productId, planType, items, actor) => GenerateInv(s.plans, productId, planType, items, actor);
    case Edit(productId, id, expected, content, actor) => UpdateInv(s.plans, productId, id, expected, content, actor);
    case ChangeStatus(productId, id, expected, status, actor) =>
      SetStatusInv(s.plans, productId, id, expected, status, actor);
    case StartJob(_, _, _, _) =>
  }

  lemma ServeHistory(s: Studio, q: Request)
    ensures var t := Serve(s, q);
            t.earlier == s.earlier + [s.plans] || (t.earlier == s.earlier && t.plans == s.plans)
  {
  }

  /** A new order names the newest revision of the plan as it was read. */
  lemma NewOrderPinned(seen: Plans, q: JobRequest, maxAttempts: int)
    requires Owned(seen, q.productId, q.planId)
    requires RevisionsOk(seen[q.planId]) && seen[q.planId].status == Selected
    ensures Pinned(seen, OrderFor(seen, q, maxAttempts))
  {
  }

  /** A creation that read an older table, however the plan was edited or archived since, is pinned all the same. */
  lemma LateOrderPinned(s: Studio, seen: Plans, keySeen: bool, q: JobRequest, maxAttempts: int)
    requires Earlier(seen, s.plans) && q.key !in s.jobs && CreateJob(s, seen, keySeen, q, maxAttempts).Ok?
    ensures var (t, o, isNew) := CreateJob(s, seen, keySeen, q, maxAttempts).value;
            isNew && t.plans == s.plans && t.jobs == s.jobs[q.key := o] && Pinned(s.plans, o)
  {
    NewOrderPinned(seen, q, maxAttempts);
    PinSurvives(seen, s.plans, OrderFor(seen, q, maxAttempts));
  }

  predicate KeepsJobs(s: Studio, t: Studio) {
    forall key | key in s.jobs :: key in t.jobs && t.jobs[key] == s.jobs[key]
  }

  lemma TableAtIsEarlier(s: Studio, i: nat)
    requires StudioInv(s)
    ensures Earlier(TableAt(s, i), s.plans)
  {
  }

  lemma StartJobKeeps(s: Studio, seen: Plans, keySeen: bool, q: JobRequest, maxAttempts: int)
    requires StudioInv(s) && Earlier(seen, s.plans) && CreateJob(s, seen, keySeen, q, maxAttempts).Ok?
    ensures var t := CreateJob(s, seen, keySeen, q, maxAttempts).value.0;
            KeepsJobs(s, t) && forall key | key in t.jobs :: Pinned(s.plans, t.jobs[key])
  {
    if q.key in s.jobs {
      ExistingIsKept(s, seen, keySeen, q, maxAttempts);
    } else {
      LateOrderPinned(s, seen, keySeen, q, maxAttempts);
      OneMorePinned(s.plans, s.jobs, q.key, CreateJob(s, seen, keySeen, q, maxAttempts).value.1);
    }
  }

  lemma ExistingIsKept(s: Studio, seen: Plans, keySeen: bool, q: JobRequest, maxAttempts: int)
    requires q.key in s.jobs && CreateJob(s, seen, keySeen, q, maxAttempts).Ok?
    ensures CreateJob(s, seen, keySeen, q, maxAttempts).value.0 == s
  {
  }

  lemma OneMorePinned(plans: Plans, jobs: map<string, Order>, key: string, o: Order)
    requires (forall k | k in jobs :: Pinned(plans, jobs[k])) && Pinned(plans, o)
    ensures var jobs' := jobs[key := o]; forall k | k in jobs' :: Pinned(plans, jobs'[k])
  {
  }

  /** A request drops or changes no job, and a new job is pinned to the plans as they are. */
  lemma ServeJobs(s: Studio, q: Request)
    requires StudioInv(s)
    ensures var t := Serve(s, q); KeepsJobs(s, t) && forall key | key in t.jobs :: Pinned(s.plans, t.jobs[key])
  {
    if q.StartJob? {
      var seen := TableAt(s, q.readAt);
      TableAtIsEarlier(s, q.readAt);
      if CreateJob(s, seen, q.keySeen, q.request, q.maxAttempts).Ok? {
        StartJobKeeps(s, seen, q.keySeen, q.request, q.maxAttempts);
      }
    } else {
      OthersKeepJobs(s, q);
    }
  }

  lemma OthersKeepJobs(s: Studio, q: Request)
    requires !q.StartJob?
    ensures Serve(s, q).jobs == s.jobs
  {
  }

  lemma PinsSurvive(before: Plans, after: Plans, jobs: map<string, Order>)
    requires Extends(before, after) && forall key | key in jobs :: Pinned(before, jobs[key])
    ensures forall key | key in jobs :: Pinned(after, jobs[key])
  {
    forall key | key in jobs ensures Pinned(after, jobs[key]) {
      PinSurvives(before, after, jobs[key]);
    }
  }

  /** The tables that were read before are still earlier tables of the new one. */
  lemma EarlierStays(earlier: seq<Plans>, before: Plans, after: Plans)
    requires PlansInv(before) && Extends(before, after)
    requires forall i | 0 <= i < |earlier| :: Earlier(earlier[i], before)
    ensures forall i | 0 <= i < |earlier| :: Earlier(earlier[i], after)
  {
    forall i | 0 <= i < |earlier| ensures Earlier(earlier[i], after) {
      ExtendsTransitive(earlier[i], before, after);
    }
  }

  /** One request: the plans are extended, and no job is dropped or changed. */
  lemma ServeKeepsInv(s: Studio, q: Request)
    requires StudioInv(s)
    ensures var t := Serve(s, q);
            StudioInv(t) && Extends(s.plans, t.plans) && t.products == s.products && KeepsJobs(s, t)
  {
    var t := Serve(s, q);
    ServeExtends(s, q);
    ServeHistory(s, q);
    ServeJobs(s, q);
    PinsSurvive(s.plans, t.plans, t.jobs);
    EarlierStays(s.earlier, s.plans, t.plans);
  }

  lemma ExtendsTransitive(a: Plans, b: Plans, c: Plans)
    requires Extends(a, b) && Extends(b, c)
    ensures Extends(a, c)
  {
    forall i | 0 <= i < |a| ensures a[i].revisions <= c[i].revisions && (a[i].status == Archived ==> c[i] == a[i]) {
      assert a[i].revisions <= b[i].revisions <= c[i].revisions;
    }
  }

  /**
   Over any sequence of requests: one selected plan per product and type, complete revision logs that
   only grow, archived plans frozen, and every job still pinned to the revision it was created from,
   although creations read tables of any age.
   */
  lemma {:induction false} HistoryIsForever(s: Studio, requests: seq<Request>)
    requires StudioInv(s)
    ensures var t := ServeAll(s, requests);
            && StudioInv(t) && Extends(s.plans, t.plans) && t.products == s.products && KeepsJobs(s, t)
            && forall key | key in s.jobs :: Pinned(t.plans, s.jobs[key])
    decreases |requests|
  {
    if requests != [] {
      var next := Serve(s, requests[0]);
      ServeKeepsInv(s, requests[0]);
      HistoryIsForever(next, requests[1..]);
      ExtendsTransitive(s.plans, next.plans, ServeAll(s, requests).plans);
    }
  }

  /** A plan that is at its old version is the plan it was. */
  lemma PlanVersionsIdentify(before: Plans, after: Plans, id: nat)
    requires PlansInv(before) && PlansInv(after) && Extends(before, after) && id < |before|
    requires after[id].version == before[id].version
    ensures after[id] == before[id]
  {
    assert before[id].revisions <= after[id].revisions;
    assert before[id].revisions == after[id].revisions;
  }

  /**
   An edit accepted at the version a user read, whatever was requested in between, changes exactly the plan
   the user read: its new revision follows the one on the user's screen.
   */
  lemma EditsWhatWasRead(s: Studio, between: seq<Request>, productId: nat, id: nat, content: Content, actor: UserId)
    requires StudioInv(s) && id < |s.plans|
    requires UpdatePlan(ServeAll(s, between).plans, productId, id, s.plans[id].version, content, actor).Ok?
    ensures var t := ServeAll(s, between);
            var after := UpdatePlan(t.plans, productId, id, s.plans[id].version, content, actor).value;
            && t.plans[id] == s.plans[id]
            && id < |after| && Revised(s.plans[id], after[id], actor) && after[id].content == content
            && after[id].status == s.plans[id].status
  {
    HistoryIsForever(s, between);
    var t := ServeAll(s, between);
    EditDecides(t.plans, productId, id, s.plans[id].version, content, actor);
    PlanVersionsIdentify(s.plans, t.plans, id);
  }

  /** The same for a status change, and so for the selection a job creation relies on. */
  lemma StatusChangesWhatWasRead(s: Studio, between: seq<Request>, productId: nat, id: nat, status: PlanStatus,
                                 actor: UserId)
    requires StudioInv(s) && id < |s.plans|
    requires SetStatus(ServeAll(s, between).plans, productId, id, s.plans[id].version, status, actor).Ok?
    ensures ServeAll(s, between).plans[id] == s.plans[id]
  {
    HistoryIsForever(s, between);
    StatusDecides(ServeAll(s, between).plans, productId, id, s.plans[id].version, status, actor);
    PlanVersionsIdentify(s.plans, ServeAll(s, between).plans, id);
  }

  /** What a creation asks of the plan it read. */
  predicate Orderable(seen: Plans, q: JobRequest) {
    && q.planId < |seen| && seen[q.planId].productId == q.productId
    && seen[q.planId].status == Selected && seen[q.planId].version == q.planVersion
  }

  predicate SameRequest(o: Order, q: JobRequest) {
    o.productId == q.productId && o.planId == q.planId && o.planVersion == q.planVersion
  }

  /**
   A creation makes a new job exactly when product, plan and parameters are in order and its key is free;
   it returns an older job exactly when that job was created for the same request. The new job has the
   plan's text, the kind of its type, and the attempts the settings allow.
   */
  lemma CreationDecides(s: Studio, seen: Plans, keySeen: bool, q: JobRequest, maxAttempts: int)
    ensures var r := CreateJob(s, seen, keySeen, q, maxAttempts);
            var ready := q.productId in s.products && Orderable(seen, q) && q.parameters.Some?;
            && (r.Ok? && r.value.2 <==> ready && q.key !in s.jobs)
            && (r.Ok? && !r.value.2 <==>
                  && q.productId in s.products && (keySeen || ready)
                  && q.key in s.jobs && SameRequest(s.jobs[q.key], q))
            && (r == Err(KeyConflict) <==>
                  && q.productId in s.products && (keySeen || ready)
                  && q.key in s.jobs && !SameRequest(s.jobs[q.key], q))
            && (r.Ok? && r.value.2 ==>
                  var o := r.value.1;
                  && r.value.0 == s.(jobs := s.jobs[q.key := o]) && SameRequest(o, q) && o.maxAttempts == maxAttempts
                  && o.title == seen[q.planId].title && o.content == seen[q.planId].content
                  && (o.kind == Image <==> seen[q.planId].planType == MainImage))
            && (r.Ok? && !r.value.2 ==> r.value.0 == s && r.value.1 == s.jobs[q.key])
  {
  }

  /** A created job is recorded under its key with the plan version that was asked for. */
  lemma CreatedJob(s: Studio, seen: Plans, keySeen: bool, q: JobRequest, maxAttempts: int)
    requires CreateJob(s, seen, keySeen, q, maxAttempts).Ok?
    ensures var (t, o, isNew) := CreateJob(s, seen, keySeen, q, maxAttempts).value;
            && q.key in t.jobs && t.jobs[q.key] == o && q.productId in s.products
            && o.productId == q.productId && o.planId == q.planId && o.planVersion == q.planVersion
            && (isNew <==> q.key !in s.jobs)
  {
  }

  /**
   Creating a job again with the same key, however much later and whatever the transaction saw, never
   creates a second job: it returns the first one, at once if it sees it, or one of the plan errors.
   */
  lemma CreationIsIdempotent(s: Studio, readAt: nat, keySeen: bool, q: JobRequest, maxAttempts: int,
                             between: seq<Request>, seenAgain: Plans, keySeenAgain: bool)
    requires StudioInv(s) && CreateJob(s, TableAt(s, readAt), keySeen, q, maxAttempts).Ok?
    ensures var first := CreateJob(s, TableAt(s, readAt), keySeen, q, maxAttempts).value;
            var later := ServeAll(first.0, between);
            var again := CreateJob(later, seenAgain, keySeenAgain, q, maxAttempts);
            (keySeenAgain ==> again.Ok?) && (again.Ok? ==> again.value == (later, first.1, false))
  {
    var (t, o, isNew) := CreateJob(s, TableAt(s, readAt), keySeen, q, maxAttempts).value;
    CreatedJob(s, TableAt(s, readAt), keySeen, q, maxAttempts);
    CreationKeepsInv(s, readAt, keySeen, q, maxAttempts);
    HistoryIsForever(t, between);
    RepeatedRequest(ServeAll(t, between), seenAgain, keySeenAgain, q, maxAttempts, o);
  }

  lemma CreationKeepsInv(s: Studio, readAt: nat, keySeen: bool, q: JobRequest, maxAttempts: int)
    requires StudioInv(s) && CreateJob(s, TableAt(s, readAt), keySeen, q, maxAttempts).Ok?
    ensures var t := CreateJob(s, TableAt(s, readAt), keySeen, q, maxAttempts).value.0;
            StudioInv(t) && t.products == s.products
  {
    ServeKeepsInv(s, StartJob(q, maxAttempts, readAt, keySeen));
    CreationIsServed(s, readAt, keySeen, q, maxAttempts);
  }

  lemma CreationIsServed(s: Studio, readAt: nat, keySeen: bool, q: JobRequest, maxAttempts: int)
    requires CreateJob(s, TableAt(s, readAt), keySeen, q, maxAttempts).Ok?
    ensures Serve(s, StartJob(q, maxAttempts, readAt, keySeen))
         == CreateJob(s, TableAt(s, readAt), keySeen, q, maxAttempts).value.0
  {
  }

  lemma RepeatedRequest(s: Studio, seen: Plans, keySeen: bool, q: JobRequest, maxAttempts: int, o: Order)
    requires q.productId in s.products && q.key in s.jobs && s.jobs[q.key] == o
    requires o.productId == q.productId && o.planId == q.planId && o.planVersion == q.planVersion
    ensures var r := CreateJob(s, seen, keySeen, q, maxAttempts);
            (keySeen ==> r.Ok?) && (r.Ok? ==> r.value == (s, o, false))
  {
  }

  // ----- the service as it runs -------------------------------------------------

  class PlanStore {
    var plans: Plans

    constructor ()
      ensures plans == [] && PlansInv(plans)
    {
      plans := [];
    }

    /** `_add_revision` on the plan at its place. */
    method AddRevision(id: nat, actor: UserId)
      requires id < |plans|
      modifies this
      ensures plans == old(plans)[id := WithRevision(old(plans)[id], actor)]
    {
      var p := plans[id];
      var revision := Revision(p.version, p.title, p.content, p.rationale, p.status, actor);
      plans := plans[id := p.(revisions := p.revisions + [revision])];
    }

    /** The creation loop after a model answered. */
    method GenerateFrom(productId: nat, planType: PlanType, items: seq<Content>, actor: UserId)
      requires PlansInv(plans)
      modifies this
      ensures PlansInv(plans) && plans == GeneratePlans(old(plans), productId, planType, items, actor)
    {
      GenerateInv(plans, productId, planType, items, actor);
      var i := 0;
      while i < |items|
        invariant 0 <= i <= |items|
        invariant GeneratePlans(plans, productId, planType, items[i..], actor)
               == GeneratePlans(old(plans), productId, planType, items, actor)
      {
        var item := items[i];
        assert items[i..][0] == item && items[i..][1..] == items[i + 1..];
        plans := plans + [Plan(productId, planType, item.title, item, item.rationale, Drafted, 1, [])];
        AddRevision(|plans| - 1, actor);
        assert plans[..|plans| - 1] + [NewPlan(productId, planType, item, actor)] == plans;
        i := i + 1;
      }
    }

    method Update(productId: nat, id: nat, expected: int, content: Content, actor: UserId)
      returns (error: Option<PlanError>)
      requires PlansInv(plans)
      modifies this
      ensures PlansInv(plans)
      ensures var r := UpdatePlan(old(plans), productId, id, expected, content, actor);
              (error.None? && r == Ok(plans)) || (error.Some? && r == Err(error.value) && plans == old(plans))
    {
      UpdateInv(plans, productId, id, expected, content, actor);
      if !Owned(plans, productId, id) {
        return Some(PlanNotFound);
      }
      if plans[id].version != expected {
        return Some(PlanVersionConflict(plans[id].version));
      }
      if plans[id].status == Archived {
        return Some(PlanArchived);
      }
      plans := plans[id := plans[id].(content := content, title := content.title, rationale := content.rationale)];
      plans := plans[id := plans[id].(version := plans[id].version + 1)];
      AddRevision(id, actor);
      assert plans == old(plans)[id := Edited(old(plans)[id], content, actor)];
      error := None;
    }

    method Restatus(id: nat, status: PlanStatus, actor: UserId)
      requires id < |plans|
      modifies this
      ensures plans == old(plans)[id := WithStatus(old(plans)[id], status, actor)]
    {
      plans := plans[id := plans[id].(status := status)];
      plans := plans[id := plans[id].(version := plans[id].version + 1)];
      AddRevision(id, actor);
    }

    /** The loop that deselects the previous plan. */
    method DeselectRivals(id: nat, actor: UserId)
      requires id < |plans|
      modifies this
      ensures |plans| == |old(plans)|
      ensures forall i | 0 <= i < |plans| ::
                plans[i] == (if Rival(old(plans), i, id) then WithStatus(old(plans)[i], Drafted, actor)
                             else old(plans)[i])
    {
      for i := 0 to |plans|
        invariant |plans| == |old(plans)|
        invariant forall k | i <= k < |plans| :: plans[k] == old(plans)[k]
        invariant plans[id] == old(plans)[id]
        invariant forall k | 0 <= k < i ::
                    plans[k] == (if Rival(old(plans), k, id) then WithStatus(old(plans)[k], Drafted, actor)
                                 else old(plans)[k])
      {
        if Rival(plans, i, id) {
          Restatus(i, Drafted, actor);
        }
      }
    }

    method UpdateStatus(productId: nat, id: nat, expected: int, status: PlanStatus, actor: UserId)
      returns (error: Option<PlanError>)
      requires PlansInv(plans)
      modifies this
      ensures PlansInv(plans)
      ensures var r := SetStatus(old(plans), productId, id, expected, status, actor);
              (error.None? && r == Ok(plans)) || (error.Some? && r == Err(error.value) && plans == old(plans))
    {
      SetStatusInv(plans, productId, id, expected, status, actor);
      if !Owned(plans, productId, id) {
        return Some(PlanNotFound);
      }
      if plans[id].version != expected {
        return Some(PlanVersionConflict(plans[id].version));
      }
      if status == plans[id].status {
        return None;
      }
      if plans[id].status == Archived {
        return Some(PlanArchived);
      }
      if status == Archived && plans[id].status == Selected {
        return Some(SelectedCannotArchive);
      }
      ghost var target := StatusChanged(plans, id, status, actor);
      if status == Selected {
        DeselectRivals(id, actor);
      }
      Restatus(id, status, actor);
      assert plans == target;
      error := None;
    }
  }
}
