/** The partners page (src/modules/partners/PartnersPage.tsx): search and
    status filter over the partner list, the actions each status offers
    and the approval dialog. */
module PartnersPage {
  import opened Wrappers
  import opened Types
  import opened Seqs
  import opened Text

  /** Business name, owner name and e-mail are all compared lower-cased. */
  predicate MatchesSearch(p: Partner, query: string)
  {
    Includes(ToLower(p.businessName), ToLower(query))
    || Includes(ToLower(p.ownerName), ToLower(query))
    || Includes(ToLower(p.email), ToLower(query))
  }

  predicate MatchesStatus(p: Partner, statusFilter: string)
  {
    statusFilter == "all" || PartnerStatusName(p.status) == statusFilter
  }

  /** The filter callback. */
  function PartnerMatches(query: string, statusFilter: string): Partner -> bool
  {
    p => MatchesSearch(p, query) && MatchesStatus(p, statusFilter)
  }

  /** filteredPartners; every match is rendered, there is no row limit. */
  function FilterPartners(partners: seq<Partner>, query: string, statusFilter: string): (r: seq<Partner>)
    ensures forall p :: p in r <==> p in partners && MatchesSearch(p, query) && MatchesStatus(p, statusFilter)
    ensures |r| <= |partners|
  {
    Filter(partners, PartnerMatches(query, statusFilter))
  }

  /** The matches keep the order of the partner list. */
  lemma FilterPartnersIsSubsequence(partners: seq<Partner>, query: string, statusFilter: string)
    ensures IsSubsequence(FilterPartners(partners, query, statusFilter), partners)
  {
    FilterIsSubsequence(partners, PartnerMatches(query, statusFilter));
  }

  /** An empty search under "All Status" lists every partner. */
  lemma EmptySearchListsEveryPartner(partners: seq<Partner>)
    ensures FilterPartners(partners, "", "all") == partners
  {
    forall i | 0 <= i < |partners|
      ensures PartnerMatches("", "all")(partners[i])
    {
      IncludesEmpty(ToLower(partners[i].businessName));
    }
    FilterKeepsAll(partners, PartnerMatches("", "all"));
  }

  /** A status filter keeps exactly the partners with that status. */
  lemma PartnerStatusFilterIsExact(partners: seq<Partner>, query: string, status: PartnerStatus, p: Partner)
    ensures p in FilterPartners(partners, query, PartnerStatusName(status)) <==>
      p in partners && MatchesSearch(p, query) && p.status == status
  {
    StatusNamesDistinct();
  }

  /** The search ignores case in every field. */
  lemma PartnerSearchIgnoresCase(p: Partner, q1: string, q2: string)
    requires ToLower(q1) == ToLower(q2)
    ensures MatchesSearch(p, q1) == MatchesSearch(p, q2)
  {
  }

  /** The row-menu entries besides "View Details". */
  datatype PartnerAction = Approve | Reject | DisablePartner | EnablePartner

  /** Which entries the row menu adds for a status. */
  function Actions(status: PartnerStatus): (acts: set<PartnerAction>)
    ensures Approve in acts <==> status == PartnerStatus.Pending
    ensures Reject in acts <==> status == PartnerStatus.Pending
    ensures DisablePartner in acts <==> status == Approved
    ensures EnablePartner in acts <==> status == Disabled
  {
    match status
    case Pending => {Approve, Reject}
    case Approved => {DisablePartner}
    case Disabled => {EnablePartner}
    case Rejected => {}
  }

  /** A rejected partner offers nothing but "View Details"; every other
      status offers something, and Enable and Disable never appear together. */
  lemma ActionsByStatus(status: PartnerStatus)
    ensures Actions(status) == {} <==> status == Rejected
    ensures !(DisablePartner in Actions(status) && EnablePartner in Actions(status))
  {
  }

  /** The approval dialog's mode. */
  datatype ApprovalAction = ApproveAction | RejectAction

  /** The word handleToggleStatus reports. */
  function ToggleWord(p: Partner): (w: string)
    ensures w == "enabled" <==> p.status == Disabled
    ensures w == "disabled" <==> p.status != Disabled
  {
    if p.status == Disabled then "enabled" else "disabled"
  }

  /** The toast handleToggleStatus shows. */
  function ToggleStatusToast(p: Partner): (msg: string)
    ensures |msg| > |p.businessName| && msg[..|p.businessName|] == p.businessName
    ensures msg[|p.businessName|..] == " has been " + ToggleWord(p)
  {
    p.businessName + " has been " + ToggleWord(p)
  }

  class PartnersPage {
    const partners: seq<Partner>
    var searchQuery: string
    var statusFilter: string
    var approvalPartner: Option<Partner>
    var approvalAction: ApprovalAction

    function FilteredPartners(): seq<Partner>
      reads this
    {
      FilterPartners(partners, searchQuery, statusFilter)
    }

    /** The approval dialog is open while a partner is held. */
    predicate ModalOpen()
      reads this
    {
      approvalPartner.Some?
    }

    constructor (mockPartners: seq<Partner>)
      ensures partners == mockPartners
      ensures searchQuery == "" && statusFilter == "all"
      ensures approvalPartner.None? && approvalAction == ApproveAction
      ensures FilteredPartners() == mockPartners
    {
      partners := mockPartners;
      searchQuery, statusFilter := "", "all";
      approvalPartner, approvalAction := None, ApproveAction;
      new;
      EmptySearchListsEveryPartner(mockPartners);
    }

    method SetSearchQuery(query: string)
      modifies this
      ensures searchQuery == query && statusFilter == old(statusFilter)
      ensures approvalPartner == old(approvalPartner) && approvalAction == old(approvalAction)
    {
      searchQuery := query;
    }

    method SetStatusFilter(filter: string)
      modifies this
      ensures statusFilter == filter && searchQuery == old(searchQuery)
      ensures approvalPartner == old(approvalPartner) && approvalAction == old(approvalAction)
    {
      statusFilter := filter;
    }

    /** handleApprove */
    method HandleApprove(p: Partner)
      modifies this
      ensures approvalPartner == Some(p) && approvalAction == ApproveAction && ModalOpen()
      ensures searchQuery == old(searchQuery) && statusFilter == old(statusFilter)
    {
      approvalPartner := Some(p);
      approvalAction := ApproveAction;
    }

    /** handleReject */
    method HandleReject(p: Partner)
      modifies this
      ensures approvalPartner == Some(p) && approvalAction == RejectAction && ModalOpen()
      ensures searchQuery == old(searchQuery) && statusFilter == old(statusFilter)
    {
      approvalPartner := Some(p);
      approvalAction := RejectAction;
    }

    /** The dialog's onClose: the partner is dropped, the mode is kept. */
    method CloseModal()
      modifies this
      ensures approvalPartner.None? && !ModalOpen()
      ensures approvalAction == old(approvalAction)
      ensures searchQuery == old(searchQuery) && statusFilter == old(statusFilter)
    {
      approvalPartner := None;
    }

    /** handleToggleStatus only reports; no partner changes. */
    method HandleToggleStatus(p: Partner) returns (toast: string)
      ensures toast == ToggleStatusToast(p)
    {
      toast := ToggleStatusToast(p);
    }
  }
}
