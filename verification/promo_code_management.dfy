/** The promo-code page: the full list of codes kept on the client and
    updated in place from each server answer (prepend on create, replace by
    id on update and toggle, remove by id on delete), a status filter, the
    summary cards and the create/edit form. */
module PromoCodeManagement {
  import opened Common

  datatype PromoCode = PromoCode(id: int, code: string, promoType: string, bonusAmount: Option<real>,
                                 activatesAccount: bool, usageLimit: int, usedCount: int, isActive: bool,
                                 expiresAt: Option<string>, createdAt: string)

  /** The create/edit form (`CreatePromoCodeRequest`). */
  datatype PromoForm = PromoForm(code: string, promoType: string, bonusAmount: real, activatesAccount: bool,
                                 usageLimit: int, expiresAt: string)

  /** What `resetForm` restores, and the form's first state. */
  const DefaultForm: PromoForm := PromoForm("", "BONUS_MONEY", 0.0, false, 1, "")

  // ---------------------------------------------------------------------
  // List updates

  /** The id `prev.map` and `prev.filter` look at. */
  function CodeId(p: PromoCode): int { p.id }

  predicate KeepsId(id: int, p: PromoCode) { p.id != id }

  /** `prev.filter(promo => promo.id !== id)`. */
  function RemoveById(codes: seq<PromoCode>, id: int): (r: seq<PromoCode>)
    ensures forall p :: p in r <==> p in codes && p.id != id
    ensures IsSubsequence(r, codes)
  {
    FilterIsSubsequence(codes, p => KeepsId(id, p));
    Filter(codes, p => KeepsId(id, p))
  }

  /** Removing an id that is not in the list changes nothing; removing one
      that is makes the list strictly shorter. */
  lemma {:induction false} RemoveAbsentId(codes: seq<PromoCode>, id: int)
    requires forall i :: 0 <= i < |codes| ==> codes[i].id != id
    ensures RemoveById(codes, id) == codes
  {
    if codes != [] {
      RemoveAbsentId(codes[1..], id);
    }
  }

  lemma {:induction false} RemovePresentIdShrinks(codes: seq<PromoCode>, id: int)
    requires exists i :: 0 <= i < |codes| && codes[i].id == id
    ensures |RemoveById(codes, id)| < |codes|
  {
    if codes[0].id != id {
      var i :| 0 <= i < |codes| && codes[i].id == id;
      assert codes[1..][i - 1].id == id;
      RemovePresentIdShrinks(codes[1..], id);
    } else {
      assert |Filter(codes[1..], p => KeepsId(id, p))| <= |codes[1..]|;
    }
  }

  // ---------------------------------------------------------------------
  // Status filter and cards

  /** `filteredPromoCodes`: "all" keeps every code, "active" the active ones,
      "inactive" the others, and any other value none. */
  function FilteredPromoCodes(codes: seq<PromoCode>, filterStatus: string): (r: seq<PromoCode>)
    ensures filterStatus == "all" ==> r == codes
    ensures filterStatus == "active" ==> forall p :: p in r <==> p in codes && p.isActive
    ensures filterStatus == "inactive" ==> forall p :: p in r <==> p in codes && !p.isActive
    ensures filterStatus !in {"all", "active", "inactive"} ==> r == []
  {
    if filterStatus == "all" then codes
    else if filterStatus == "active" then Filter(codes, (p: PromoCode) => p.isActive)
    else if filterStatus == "inactive" then Filter(codes, (p: PromoCode) => !p.isActive)
    else []
  }

  function ActiveCount(codes: seq<PromoCode>): nat { Count(codes, (p: PromoCode) => p.isActive) }

  function InactiveCount(codes: seq<PromoCode>): nat { Count(codes, (p: PromoCode) => !p.isActive) }

  /** The active and inactive cards always add up to the total card. */
  lemma {:induction false} ActivePlusInactiveIsTotal(codes: seq<PromoCode>)
    ensures ActiveCount(codes) + InactiveCount(codes) == |codes|
  {
    if codes != [] {
      ActivePlusInactiveIsTotal(codes[1..]);
    }
  }

  /** `totalUsage`: the sum of the codes' use counts. */
  function TotalUsage(codes: seq<PromoCode>): int {
    if codes == [] then 0 else codes[0].usedCount + TotalUsage(codes[1..])
  }

  /** Replacing one code (by a code with the same id) changes the total
      usage by the difference of the two use counts, for each copy of the
      id in the list. */
  lemma {:induction false} ReplaceUniqueIdUsage(codes: seq<PromoCode>, i: int, updated: PromoCode)
    requires 0 <= i < |codes|
    requires forall j :: 0 <= j < |codes| && j != i ==> codes[j].id != codes[i].id
    ensures TotalUsage(ReplaceById(codes, CodeId, codes[i].id, updated))
         == TotalUsage(codes) - codes[i].usedCount + updated.usedCount
  {
    var id := codes[i].id;
    if i == 0 {
      ReplaceAbsentId(codes[1..], CodeId, id, updated);
    } else {
      forall j | 0 <= j < |codes[1..]| && j != i - 1 ensures codes[1..][j].id != codes[1..][i - 1].id {
        assert codes[1..][j] == codes[j + 1];
      }
      ReplaceUniqueIdUsage(codes[1..], i - 1, updated);
    }
  }

  /** With no negative use counts, deleting codes never raises the total. */
  lemma {:induction false} RemoveLowersUsage(codes: seq<PromoCode>, id: int)
    requires forall j :: 0 <= j < |codes| ==> codes[j].usedCount >= 0
    ensures TotalUsage(RemoveById(codes, id)) <= TotalUsage(codes)
  {
    if codes != [] {
      RemoveLowersUsage(codes[1..], id);
    }
  }

  // ---------------------------------------------------------------------
  // Form

  /** `s.split('T')[0]`: the text before the first 'T' (all of it when there
      is none). */
  function BeforeFirstT(s: string): (r: string)
    ensures |r| <= |s| && r == s[..|r|]
    ensures 'T' !in r
    ensures |r| < |s| ==> s[|r|] == 'T'
  {
    if s == [] || s[0] == 'T' then [] else [s[0]] + BeforeFirstT(s[1..])
  }

  /** `openEditModal`'s form: a missing bonus becomes 0 and the expiry date
      keeps only its date part ('' when absent or empty). */
  function EditFormOf(p: PromoCode): (f: PromoForm)
    ensures f.code == p.code && f.promoType == p.promoType && f.activatesAccount == p.activatesAccount
    ensures f.usageLimit == p.usageLimit
    ensures f.bonusAmount == (if p.bonusAmount.Some? then p.bonusAmount.value else 0.0)
    ensures p.expiresAt.None? || p.expiresAt.value == "" ==> f.expiresAt == ""
    ensures p.expiresAt.Some? ==> 'T' !in f.expiresAt && |f.expiresAt| <= |p.expiresAt.value|
                                  && f.expiresAt == p.expiresAt.value[..|f.expiresAt|]
  {
    PromoForm(p.code, p.promoType,
              if p.bonusAmount.Some? then p.bonusAmount.value else 0.0,
              p.activatesAccount, p.usageLimit,
              if p.expiresAt.Some? && p.expiresAt.value != "" then BeforeFirstT(p.expiresAt.value) else "")
  }

  /** An ISO timestamp `date + "T" + time` keeps exactly its date part. */
  lemma {:induction false} DatePartOfTimestamp(date: string, time: string)
    requires 'T' !in date
    ensures BeforeFirstT(date + "T" + time) == date
  {
    if date != [] {
      assert (date + "T" + time)[1..] == date[1..] + "T" + time;
      DatePartOfTimestamp(date[1..], time);
    }
  }

  /** The usage-limit box: `parseInt(text) || 1`, the parse given as None
      for NaN. The stored limit is never 0. */
  function UsageLimitInput(parsed: Option<int>): (limit: int)
    ensures limit != 0
    ensures parsed.Some? && parsed.value != 0 ==> limit == parsed.value
    ensures parsed.None? || parsed.value == 0 ==> limit == 1
  {
    if parsed.Some? && parsed.value != 0 then parsed.value else 1
  }

  /** The bonus box: `parseFloat(text) || 0`. */
  function BonusInput(parsed: Option<real>): (amount: real)
    ensures parsed.Some? ==> amount == parsed.value
    ensures parsed.None? ==> amount == 0.0
  {
    if parsed.Some? then parsed.value else 0.0
  }

  // ---------------------------------------------------------------------
  // Page state

  /** A server answer to a promo-code call: an HTTP failure, a success
      without data (reported as a failure, nothing changes), or a code. */
  type PromoAnswer = Outcome<Option<PromoCode>>

  predicate Delivered(a: PromoAnswer) { a.Success? && a.data.Some? }

  class PromoPage {
    var promoCodes: seq<PromoCode>
    var loading: bool
    var showCreateModal: bool
    var showEditModal: bool
    var showDetailsModal: bool
    var selectedPromoCode: Option<PromoCode>
    var filterStatus: string
    var formData: PromoForm

    constructor()
      ensures promoCodes == [] && loading && !showCreateModal && !showEditModal && !showDetailsModal
      ensures selectedPromoCode == None && filterStatus == "all" && formData == DefaultForm
    {
      promoCodes := [];
      loading := true;
      showCreateModal := false;
      showEditModal := false;
      showDetailsModal := false;
      selectedPromoCode := None;
      filterStatus := "all";
      formData := DefaultForm;
    }

    /** What the table shows. */
    function Shown(): seq<PromoCode>
      reads this
    {
      FilteredPromoCodes(promoCodes, filterStatus)
    }

    /** `loadPromoCodes`: a list in the answer replaces the codes; no data or
        a failure keeps them; the spinner goes away either way. */
    method LoadDone(outcome: Outcome<Option<seq<PromoCode>>>)
      modifies this
      ensures outcome.Success? && outcome.data.Some? ==> promoCodes == outcome.data.value
      ensures !(outcome.Success? && outcome.data.Some?) ==> promoCodes == old(promoCodes)
      ensures !loading && formData == old(formData) && filterStatus == old(filterStatus)
      ensures selectedPromoCode == old(selectedPromoCode)
    {
      if outcome.Success? && outcome.data.Some? {
        promoCodes := outcome.data.value;
      }
      loading := false;
    }

    /** `createPromoCode`: a returned code goes first, the others follow in
        their order; the modal closes and the form resets. Otherwise nothing
        changes. */
    method CreatePromoCode(outcome: PromoAnswer)
      modifies this
      ensures Delivered(outcome) ==> (promoCodes == [outcome.data.value] + old(promoCodes)
                                      && !showCreateModal && formData == DefaultForm)
      ensures !Delivered(outcome) ==> (promoCodes == old(promoCodes) && showCreateModal == old(showCreateModal)
                                       && formData == old(formData))
      ensures |promoCodes| <= |old(promoCodes)| + 1
      ensures selectedPromoCode == old(selectedPromoCode) && filterStatus == old(filterStatus)
      ensures showEditModal == old(showEditModal) && loading == old(loading)
    {
      if Delivered(outcome) {
        promoCodes := [outcome.data.value] + promoCodes;
        showCreateModal := false;
        formData := DefaultForm;
      }
    }

    /** `updatePromoCode`: without a selected code nothing is sent. With
        one, a returned code replaces every code with the selected id, the
        modal closes and the form resets; otherwise nothing changes. */
    method UpdatePromoCode(outcome: PromoAnswer) returns (sent: Option<(int, PromoForm)>)
      modifies this
      ensures old(selectedPromoCode).None? ==> (sent == None && promoCodes == old(promoCodes)
                                                && formData == old(formData) && showEditModal == old(showEditModal))
      ensures old(selectedPromoCode).Some? ==> sent == Some((old(selectedPromoCode).value.id, old(formData)))
      ensures old(selectedPromoCode).Some? && Delivered(outcome) ==>
        promoCodes == ReplaceById(old(promoCodes), CodeId, old(selectedPromoCode).value.id, outcome.data.value)
        && !showEditModal && formData == DefaultForm
      ensures old(selectedPromoCode).Some? && !Delivered(outcome) ==>
        promoCodes == old(promoCodes) && formData == old(formData) && showEditModal == old(showEditModal)
      ensures |promoCodes| == |old(promoCodes)|
      ensures selectedPromoCode == old(selectedPromoCode) && filterStatus == old(filterStatus)
      ensures showCreateModal == old(showCreateModal) && loading == old(loading)
    {
      if selectedPromoCode.None? {
        sent := None;
        return;
      }
      var id := selectedPromoCode.value.id;
      sent := Some((id, formData));
      if Delivered(outcome) {
        promoCodes := ReplaceById(promoCodes, CodeId, id, outcome.data.value);
        showEditModal := false;
        formData := DefaultForm;
      }
    }

    /** The activate/deactivate button of a row asks for the opposite of the
        row's state; a returned code replaces the codes with that id. */
    method TogglePromoCodeStatus(p: PromoCode, outcome: PromoAnswer) returns (requested: (int, bool))
      modifies this
      ensures requested == (p.id, !p.isActive)
      ensures Delivered(outcome) ==> promoCodes == ReplaceById(old(promoCodes), CodeId, p.id, outcome.data.value)
      ensures !Delivered(outcome) ==> promoCodes == old(promoCodes)
      ensures |promoCodes| == |old(promoCodes)|
      ensures formData == old(formData) && selectedPromoCode == old(selectedPromoCode)
      ensures filterStatus == old(filterStatus) && loading == old(loading)
      ensures showCreateModal == old(showCreateModal) && showEditModal == old(showEditModal)
    {
      requested := (p.id, !p.isActive);
      if Delivered(outcome) {
        promoCodes := ReplaceById(promoCodes, CodeId, p.id, outcome.data.value);
      }
    }

    /** `deletePromoCode`: nothing happens unless the user confirms; after
        a successful delete exactly the codes with that id are gone. */
    method DeletePromoCode(id: int, confirmed: bool, outcome: Outcome<()>) returns (sent: bool)
      modifies this
      ensures sent == confirmed
      ensures confirmed && outcome.Success? ==> promoCodes == RemoveById(old(promoCodes), id)
      ensures !(confirmed && outcome.Success?) ==> promoCodes == old(promoCodes)
      ensures forall q :: q in promoCodes && q.id != id <==> q in old(promoCodes) && q.id != id
      ensures formData == old(formData) && selectedPromoCode == old(selectedPromoCode)
      ensures filterStatus == old(filterStatus) && loading == old(loading)
    {
      sent := confirmed;
      if confirmed && outcome.Success? {
        promoCodes := RemoveById(promoCodes, id);
      }
    }

    /** `openEditModal`: the code is selected and its values fill the form. */
    method OpenEditModal(p: PromoCode)
      modifies this
      ensures selectedPromoCode == Some(p) && formData == EditFormOf(p) && showEditModal
      ensures promoCodes == old(promoCodes) && filterStatus == old(filterStatus)
      ensures showCreateModal == old(showCreateModal) && showDetailsModal == old(showDetailsModal)
    {
      selectedPromoCode := Some(p);
      formData := EditFormOf(p);
      showEditModal := true;
    }

    method OpenDetailsModal(p: PromoCode)
      modifies this
      ensures selectedPromoCode == Some(p) && showDetailsModal
      ensures promoCodes == old(promoCodes) && formData == old(formData) && filterStatus == old(filterStatus)
      ensures showCreateModal == old(showCreateModal) && showEditModal == old(showEditModal)
    {
      selectedPromoCode := Some(p);
      showDetailsModal := true;
    }

    /** Cancel on either modal closes it and resets the form. */
    method CancelForm()
      modifies this
      ensures !showCreateModal && !showEditModal && formData == DefaultForm
      ensures promoCodes == old(promoCodes) && selectedPromoCode == old(selectedPromoCode)
      ensures filterStatus == old(filterStatus) && showDetailsModal == old(showDetailsModal)
    {
      showCreateModal := false;
      showEditModal := false;
      formData := DefaultForm;
    }

    method SetFilterStatus(value: string)
      modifies this
      ensures filterStatus == value
      ensures promoCodes == old(promoCodes) && formData == old(formData)
      ensures selectedPromoCode == old(selectedPromoCode)
    {
      filterStatus := value;
    }

    method SetUsageLimit(parsed: Option<int>)
      modifies this
      ensures formData == old(formData).(usageLimit := UsageLimitInput(parsed)) && formData.usageLimit != 0
      ensures promoCodes == old(promoCodes) && filterStatus == old(filterStatus)
      ensures selectedPromoCode == old(selectedPromoCode)
    {
      formData := formData.(usageLimit := UsageLimitInput(parsed));
    }

    method SetBonusAmount(parsed: Option<real>)
      modifies this
      ensures formData == old(formData).(bonusAmount := BonusInput(parsed))
      ensures promoCodes == old(promoCodes) && filterStatus == old(filterStatus)
      ensures selectedPromoCode == old(selectedPromoCode)
    {
      formData := formData.(bonusAmount := BonusInput(parsed));
    }
  }
}
