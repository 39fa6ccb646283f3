/**
 * The manager's lead board (src/pages/manager/ManagerLeads.tsx): the split
 * into unassigned and own leads, the claim, the status change and the
 * controls each card shows.
 */
module ManagerLeads {
  import opened Seqs
  import opened Domain
  import opened Leads

  predicate Unassigned(l: Lead)
  {
    l.assignedManager.None?
  }

  /** `newLeads`: the leads nobody has claimed. */
  function NewLeads(leads: seq<Lead>): (r: seq<Lead>)
    ensures forall l :: l in r <==> l in leads && l.assignedManager.None?
    ensures |r| <= |leads|
  {
    Filter(leads, Unassigned)
  }

  /**
   * `myLeads`: the leads assigned to the signed-in user. Without a user,
   * `user?.id` is undefined and no lead matches.
   */
  function MyLeads(leads: seq<Lead>, user: Option<Uuid>): (r: seq<Lead>)
    ensures forall l :: l in r <==> user.Some? && l in leads && l.assignedManager == user
    ensures forall l :: l in r ==> l !in NewLeads(leads)
  {
    if user.None? then [] else Filter(leads, (l: Lead) => l.assignedManager == user)
  }

  predicate Offered(s: LeadStatus)
  {
    s != New
  }

  lemma StatusOptionsUnfold()
    ensures Filter(LeadStatuses, Offered) == [Contacted, Negotiating, ClosedWon, ClosedLost]
  {
    var l := LeadStatuses;
    assert l[..1] == [New];
    assert l[..1][..0] == [];
    assert Filter(l[..1], Offered) == [];
    assert l[..2][..1] == l[..1];
    assert Filter(l[..2], Offered) == [Contacted];
    assert l[..3][..2] == l[..2];
    assert Filter(l[..3], Offered) == [Contacted, Negotiating];
    assert l[..4][..3] == l[..3];
    assert Filter(l[..4], Offered) == [Contacted, Negotiating, ClosedWon];
    assert l[..4] == l[..|l| - 1];
  }

  /** Every status is one of the keys of `LEAD_STATUSES`. */
  lemma EveryStatusListed(s: LeadStatus)
    ensures s in LeadStatuses
  {
    match s
    case New => assert LeadStatuses[0] == s;
    case Contacted => assert LeadStatuses[1] == s;
    case Negotiating => assert LeadStatuses[2] == s;
    case ClosedWon => assert LeadStatuses[3] == s;
    case ClosedLost => assert LeadStatuses[4] == s;
  }

  /** The select offers every key of `LEAD_STATUSES` except `new`, in their order. */
  function StatusOptions(): (r: seq<LeadStatus>)
    ensures forall s :: s in r <==> s != New
  {
    var r := Filter(LeadStatuses, Offered);
    StatusOptionsUnfold();
    assert forall s :: s in r <==> s != New by {
      forall s ensures s in LeadStatuses {
        EveryStatusListed(s);
      }
    }
    r
  }

  /** The options keep the order of `LEAD_STATUSES`. */
  lemma StatusOptionsOrder()
    ensures StatusOptions() == [Contacted, Negotiating, ClosedWon, ClosedLost]
  {
    StatusOptionsUnfold();
  }

  function ClaimPatch(user: Uuid): LeadPatch
  {
    NoLeadChange.(status := Some(Contacted), assignedManager := Some(user))
  }

  function StatusPatch(status: LeadStatus): LeadPatch
  {
    NoLeadChange.(status := Some(status))
  }

  /**
   * `handleClaimLead`: an unconditional update by id. Whoever is assigned
   * already is overwritten; there is no "only if unassigned" guard.
   */
  method ClaimLead(table: LeadTable, user: Option<Uuid>, id: Uuid) returns (toast: Toast)
    requires table.Valid()
    modifies table
    ensures table.Valid()
    ensures user.None? ==> table.rows == old(table.rows) && toast == Silent
    ensures user.Some? ==> |table.rows| == |old(table.rows)|
    ensures user.Some? ==> forall i :: 0 <= i < |table.rows| ==>
      table.rows[i] == if old(table.rows)[i].id == id
                       then old(table.rows)[i].(assignedManager := user, status := Contacted)
                       else old(table.rows)[i]
    ensures user.Some? ==> (toast == Success("Заявка взята!") <==> id in IdsOf(old(table.rows)))
    ensures user.Some? && id !in IdsOf(old(table.rows)) ==> toast == Failure("Ошибка при взятии заявки")
  {
    if user.None? {
      return Silent;
    }
    var r := table.Update(id, ClaimPatch(user.value));
    if r.Ok? {
      toast := Success("Заявка взята!");
    } else {
      toast := Failure("Ошибка при взятии заявки");
    }
  }

  /** `handleStatusChange`: writes the `status` column of one lead and nothing else. */
  method ChangeStatus(table: LeadTable, id: Uuid, status: LeadStatus) returns (toast: Toast)
    requires table.Valid()
    modifies table
    ensures table.Valid()
    ensures |table.rows| == |old(table.rows)|
    ensures forall i :: 0 <= i < |table.rows| ==>
      table.rows[i] == if old(table.rows)[i].id == id
                       then old(table.rows)[i].(status := status)
                       else old(table.rows)[i]
    ensures toast == (if id in IdsOf(old(table.rows)) then Success("Статус обновлён") else Failure("Ошибка обновления"))
  {
    var r := table.Update(id, StatusPatch(status));
    if r.Ok? {
      toast := Success("Статус обновлён");
    } else {
      toast := Failure("Ошибка обновления");
    }
  }

  /** Neither manager action can put a lead back to `new` when the status comes from the select. */
  lemma ManagerNeverSetsNew(l: Lead, user: Uuid, choice: LeadStatus)
    requires choice in StatusOptions()
    ensures ApplyLeadPatch(l, ClaimPatch(user)).status != New
    ensures ApplyLeadPatch(l, StatusPatch(choice)).status != New
  {
  }

  /** Claims do not compare and swap: a later claim on the same lead replaces the earlier one. */
  lemma LastClaimWins(l: Lead, first: Uuid, second: Uuid)
    ensures ApplyLeadPatch(ApplyLeadPatch(l, ClaimPatch(first)), ClaimPatch(second)).assignedManager == Some(second)
  {
  }

  datatype Control = ClaimButton | StatusSelect(options: seq<LeadStatus>)

  datatype LeadCard = LeadCard(lead: Lead, control: Control)

  /** The two tabs of the page. */
  datatype Board = Board(newTab: seq<LeadCard>, myTab: seq<LeadCard>)

  /** One card per lead, each with the same control. */
  function CardsWith(leads: seq<Lead>, control: Control): (r: seq<LeadCard>)
    ensures forall c :: c in r ==> c.lead in leads && c.control == control
    ensures forall l :: l in leads ==> LeadCard(l, control) in r
  {
    if leads == [] then []
    else
      assert forall l :: l in leads ==> l == leads[0] || l in leads[1..];
      [LeadCard(leads[0], control)] + CardsWith(leads[1..], control)
  }

  /**
   * The cards rendered: the "new" tab shows each unassigned lead with a
   * claim button, the "my" tab each own lead with the status select.
   */
  function BoardOf(leads: seq<Lead>, user: Option<Uuid>): (b: Board)
    ensures forall c :: c in b.newTab ==> c.control == ClaimButton && c.lead in leads && c.lead.assignedManager.None?
    ensures forall c :: c in b.myTab ==>
      c.control == StatusSelect(StatusOptions()) && c.lead in leads && user.Some? && c.lead.assignedManager == user
    ensures forall l :: l in leads && l.assignedManager.None? ==> LeadCard(l, ClaimButton) in b.newTab
    ensures forall l :: l in leads && user.Some? && l.assignedManager == user ==>
      LeadCard(l, StatusSelect(StatusOptions())) in b.myTab
  {
    Board(CardsWith(NewLeads(leads), ClaimButton), CardsWith(MyLeads(leads, user), StatusSelect(StatusOptions())))
  }
}
