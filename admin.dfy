/** The platform-administration actions of lib/actions/admin.ts: client and
    plan management behind a super-admin guard, the client and plan lists,
    and the platform counters. */
module Admin {
  import opened Common
  import opened Types

  function ClientRowId(c: Client): Id { c.id }

  function PlanId(p: Plan): Id { p.id }

  /** The guard in front of every write: a signed-in caller whose profile
      has the super-admin role. Both failures raise the same message. */
  function Guard(session: Session): (r: Result<()>)
    ensures r.Ok? <==> session.user.Some? && session.profile.Some? && session.profile.value.role == SuperAdmin
    ensures r.Err? ==> r == Err(Message("Unauthorized"))
  {
    if session.user.None? then Err(Message("Unauthorized"))
    else if session.profile.None? || session.profile.value.role != SuperAdmin then Err(Message("Unauthorized"))
    else Ok(())
  }

  /** `order("created_at", { ascending: false })` on clients. */
  predicate ClientNewerFirst(a: Client, b: Client) { a.createdAt >= b.createdAt }

  lemma ClientNewerFirstTotal()
    ensures Total(ClientNewerFirst)
  {
  }

  /** getAllClients: an empty list for an anonymous caller, an error for
      anyone else who is not a super admin, and otherwise every client,
      newest first (an empty list when the query returns no data). */
  function GetAllClients(session: Session, clients: seq<Client>, queryFails: bool): (r: Result<seq<Client>>)
    ensures session.user.None? ==> r == Ok([])
    ensures session.user.Some? && Guard(session).Err? ==> r == Err(Message("Unauthorized"))
    ensures Guard(session).Ok? && queryFails ==> r == Ok([])
    ensures Guard(session).Ok? && !queryFails ==>
      r.Ok? && multiset(r.value) == multiset(clients) && Sorted(r.value, ClientNewerFirst)
  {
    if session.user.None? then Ok([])
    else if Guard(session).Err? then Err(Message("Unauthorized"))
    else if queryFails then Ok([])
    else
      ClientNewerFirstTotal();
      Ok(Sort(clients, ClientNewerFirst))
  }

  /** `order("price", { ascending: true })`. */
  predicate CheaperFirst(a: Plan, b: Plan) { a.price <= b.price }

  lemma CheaperFirstTotal()
    ensures Total(CheaperFirst)
  {
  }

  /** getAllPlans: every plan, cheapest first, for any caller. */
  function GetAllPlans(plans: seq<Plan>, queryFails: bool): (r: seq<Plan>)
    ensures queryFails ==> r == []
    ensures !queryFails ==> multiset(r) == multiset(plans)
    ensures Sorted(r, CheaperFirst)
  {
    if queryFails then []
    else
      CheaperFirstTotal();
      Sort(plans, CheaperFirst)
  }

  datatype AdminStats = AdminStats(
    activeClients: nat,
    totalClients: nat,
    totalUsers: nat,
    totalBoards: nat,
    totalLeads: nat)

  /** The length of a result set, 0 when it is missing (`data?.length || 0`). */
  function SizeOr0<T>(rows: Option<seq<T>>): (n: nat)
    ensures rows.None? ==> n == 0
    ensures rows.Some? ==> n == |rows.value|
  {
    if rows.None? then 0 else |rows.value|
  }

  function IsActive(c: Client): bool { c.status == Active }

  /** getAdminStats: `None` for an anonymous caller, an error for any other
      caller who is not a super admin, and otherwise the counters, each 0
      when its query returns no data. */
  function GetAdminStats(session: Session, clients: Option<seq<Client>>, profiles: Option<seq<Profile>>,
                         boards: Option<seq<Board>>, cards: Option<seq<Card>>)
    : (r: Result<Option<AdminStats>>)
    ensures session.user.None? ==> r == Ok(None)
    ensures session.user.Some? && Guard(session).Err? ==> r == Err(Message("Unauthorized"))
    ensures Guard(session).Ok? ==> r.Ok? && r.value.Some?
    ensures r.Ok? && r.value.Some? ==>
      var s := r.value.value;
      && s.activeClients <= s.totalClients
      && s.totalClients == SizeOr0(clients)
      && s.activeClients == (if clients.None? then 0 else Count(clients.value, IsActive))
      && s.totalUsers == SizeOr0(profiles)
      && s.totalBoards == SizeOr0(boards)
      && s.totalLeads == SizeOr0(cards)
  {
    if session.user.None? then Ok(None)
    else if Guard(session).Err? then Err(Message("Unauthorized"))
    else
      var active := if clients.None? then 0 else Count(clients.value, IsActive);
      Ok(Some(AdminStats(active, SizeOr0(clients), SizeOr0(profiles), SizeOr0(boards), SizeOr0(cards))))
  }

  /** The platform tables the administrator manages. */
  class AdminTables {
    var clients: seq<Client>
    var plans: seq<Plan>

    ghost predicate Valid()
      reads this
    {
      KeysDistinct(clients, ClientRowId) && KeysDistinct(plans, PlanId)
    }

    constructor ()
      ensures Valid() && clients == [] && plans == []
    {
      clients := [];
      plans := [];
    }

    /** createClient. */
    method CreateClient(session: Session, name: string, email: string, phone: string, planId: Id,
                        status: ClientStatus, newId: Id, now: Timestamp, insertFails: bool)
      returns (r: Result<Client>)
      requires Valid()
      requires FreshKey(clients, ClientRowId, newId)
      modifies this
      ensures Valid()
      ensures plans == old(plans)
      ensures Guard(session).Err? ==> r == Err(Message("Unauthorized"))
      ensures Guard(session).Ok? && insertFails ==> r == Err(DatastoreError)
      ensures r.Err? ==> clients == old(clients)
      ensures Guard(session).Ok? && !insertFails ==>
        && r == Ok(Client(newId, name, email, Some(phone), Some(planId), status, now))
        && clients == old(clients) + [r.value]
    {
      var guard := Guard(session);
      if guard.Err? {
        return Err(guard.failure);
      }
      if insertFails {
        return Err(DatastoreError);
      }
      var client := Client(newId, name, email, Some(phone), Some(planId), status, now);
      AppendKeepsKeysDistinct(clients, client, ClientRowId);
      clients := clients + [client];
      r := Ok(client);
    }

    /** updateClient: rewrites the editable columns of the row with that id
        and no other. */
    method UpdateClient(session: Session, clientId: Id, name: string, email: string, phone: string,
                        planId: Id, status: ClientStatus, updateFails: bool)
      returns (r: Result<()>)
      requires Valid()
      modifies this
      ensures Valid()
      ensures plans == old(plans)
      ensures Guard(session).Err? ==> r == Err(Message("Unauthorized"))
      ensures Guard(session).Ok? && updateFails ==> r == Err(DatastoreError)
      ensures r.Err? ==> clients == old(clients)
      ensures r.Ok? ==> |clients| == |old(clients)|
      ensures r.Ok? ==> forall i :: 0 <= i < |clients| ==>
        clients[i] == if old(clients)[i].id == clientId
                      then old(clients)[i].(name := name, email := email, phone := Some(phone),
                                            planId := Some(planId), status := status)
                      else old(clients)[i]
      ensures r.Ok? <==> Guard(session).Ok? && !updateFails
    {
      var guard := Guard(session);
      if guard.Err? {
        return Err(guard.failure);
      }
      if updateFails {
        return Err(DatastoreError);
      }
      var current := clients;
      clients := seq(|current|, i requires 0 <= i < |current| =>
        if current[i].id == clientId
        then current[i].(name := name, email := email, phone := Some(phone), planId := Some(planId), status := status)
        else current[i]);
      r := Ok(());
    }

    /** deleteClient: removes the row with that id and no other. */
    method DeleteClient(session: Session, clientId: Id, deleteFails: bool) returns (r: Result<()>)
      requires Valid()
      modifies this
      ensures Valid()
      ensures plans == old(plans)
      ensures Guard(session).Err? ==> r == Err(Message("Unauthorized"))
      ensures Guard(session).Ok? && deleteFails ==> r == Err(DatastoreError)
      ensures r.Err? ==> clients == old(clients)
      ensures r.Ok? <==> Guard(session).Ok? && !deleteFails
      ensures r.Ok? ==> clients == Filter(old(clients), (c: Client) => c.id != clientId)
      ensures r.Ok? ==> forall c :: c in clients <==> c in old(clients) && c.id != clientId
    {
      var guard := Guard(session);
      if guard.Err? {
        return Err(guard.failure);
      }
      if deleteFails {
        return Err(DatastoreError);
      }
      FilterKeepsKeysDistinct(clients, (c: Client) => c.id != clientId, ClientRowId);
      clients := Filter(clients, (c: Client) => c.id != clientId);
      r := Ok(());
    }

    /** createPlan. */
    method CreatePlan(session: Session, name: string, description: string, price: real,
                      billingPeriod: BillingPeriod, maxBoards: int, maxUsers: int, features: map<string, bool>,
                      newId: Id, now: Timestamp, insertFails: bool)
      returns (r: Result<Plan>)
      requires Valid()
      requires FreshKey(plans, PlanId, newId)
      modifies this
      ensures Valid()
      ensures clients == old(clients)
      ensures Guard(session).Err? ==> r == Err(Message("Unauthorized"))
      ensures Guard(session).Ok? && insertFails ==> r == Err(DatastoreError)
      ensures r.Err? ==> plans == old(plans)
      ensures Guard(session).Ok? && !insertFails ==>
        && r == Ok(Plan(newId, name, Some(description), price, billingPeriod, maxBoards, maxUsers, features, now))
        && plans == old(plans) + [r.value]
    {
      var guard := Guard(session);
      if guard.Err? {
        return Err(guard.failure);
      }
      if insertFails {
        return Err(DatastoreError);
      }
      var plan := Plan(newId, name, Some(description), price, billingPeriod, maxBoards, maxUsers, features, now);
      AppendKeepsKeysDistinct(plans, plan, PlanId);
      plans := plans + [plan];
      r := Ok(plan);
    }

    /** updatePlan: rewrites the editable columns of the row with that id
        and no other. */
    method UpdatePlan(session: Session, planId: Id, name: string, description: string, price: real,
                      billingPeriod: BillingPeriod, maxBoards: int, maxUsers: int, features: map<string, bool>,
                      updateFails: bool)
      returns (r: Result<()>)
      requires Valid()
      modifies this
      ensures Valid()
      ensures clients == old(clients)
      ensures Guard(session).Err? ==> r == Err(Message("Unauthorized"))
      ensures Guard(session).Ok? && updateFails ==> r == Err(DatastoreError)
      ensures r.Err? ==> plans == old(plans)
      ensures r.Ok? <==> Guard(session).Ok? && !updateFails
      ensures r.Ok? ==> |plans| == |old(plans)|
      ensures r.Ok? ==> forall i :: 0 <= i < |plans| ==>
        plans[i] == if old(plans)[i].id == planId
                    then old(plans)[i].(name := name, description := Some(description), price := price,
                                        billingPeriod := billingPeriod, maxBoards := maxBoards,
                                        maxUsers := maxUsers, features := features)
                    else old(plans)[i]
    {
      var guard := Guard(session);
      if guard.Err? {
        return Err(guard.failure);
      }
      if updateFails {
        return Err(DatastoreError);
      }
      var current := plans;
      plans := seq(|current|, i requires 0 <= i < |current| =>
        if current[i].id == planId
        then current[i].(name := name, description := Some(description), price := price,
                         billingPeriod := billingPeriod, maxBoards := maxBoards, maxUsers := maxUsers,
                         features := features)
        else current[i]);
      r := Ok(());
    }

    /** deletePlan: removes the row with that id and no other. */
    method DeletePlan(session: Session, planId: Id, deleteFails: bool) returns (r: Result<()>)
      requires Valid()
      modifies this
      ensures Valid()
      ensures clients == old(clients)
      ensures Guard(session).Err? ==> r == Err(Message("Unauthorized"))
      ensures Guard(session).Ok? && deleteFails ==> r == Err(DatastoreError)
      ensures r.Err? ==> plans == old(plans)
      ensures r.Ok? <==> Guard(session).Ok? && !deleteFails
      ensures r.Ok? ==> plans == Filter(old(plans), (p: Plan) => p.id != planId)
      ensures r.Ok? ==> forall p :: p in plans <==> p in old(plans) && p.id != planId
    {
      var guard := Guard(session);
      if guard.Err? {
        return Err(guard.failure);
      }
      if deleteFails {
        return Err(DatastoreError);
      }
      FilterKeepsKeysDistinct(plans, (p: Plan) => p.id != planId, PlanId);
      plans := Filter(plans, (p: Plan) => p.id != planId);
      r := Ok(());
    }
  }

  /** An administrator (role "admin") is refused like a plain user: the
      guard admits the super-admin role alone. */
  lemma AdminRoleRefused(user: Id, p: Profile)
    requires p.role == Admin
    ensures Guard(Session(Some(user), Some(p))) == Err(Message("Unauthorized"))
  {
  }
}
