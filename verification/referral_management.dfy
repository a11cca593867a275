/** The referral page: referral trees drawn as nested cards, where a card's
    direct referrals are drawn (one level deeper) only while its id is in
    the set of expanded users; the overview of the first ten trees; and the
    search that loads one user's tree. */
module ReferralManagement {
  import opened Common
  import opened Text
  import opened ApiService

  /** One user of a referral tree, with the fields the cards' logic uses. */
  datatype ReferralNode = ReferralNode(id: int, username: string, fullName: string, totalReferralsCount: int,
                                       directReferrals: seq<ReferralNode>)

  /** The figures shown on the statistics cards that are whole numbers. */
  datatype ReferralStatistics = ReferralStatistics(totalUsers: int, usersWithReferrals: int, usersWhoRefer: int,
                                                   topReferrer: string, topReferrerCount: int)

  // ---------------------------------------------------------------------
  // Expansion set

  /** `toggleUserExpansion`'s new set: the id leaves the set if it was in
      it and joins it otherwise. */
  function Toggle(expanded: set<int>, id: int): (r: set<int>)
    ensures id in r <==> id !in expanded
    ensures forall x :: x != id ==> (x in r <==> x in expanded)
  {
    if id in expanded then expanded - {id} else expanded + {id}
  }

  /** Toggling the same card twice restores the set. */
  lemma ToggleTwice(expanded: set<int>, id: int)
    ensures Toggle(Toggle(expanded, id), id) == expanded
  {
  }

  /** Toggles of different cards commute. */
  lemma TogglesCommute(expanded: set<int>, a: int, b: int)
    ensures Toggle(Toggle(expanded, a), b) == Toggle(Toggle(expanded, b), a)
  {
  }

  // ---------------------------------------------------------------------
  // Cards

  /** What one drawn card shows: its user, its depth, the crown, the star,
      the expand button and which way that button points. */
  datatype Card = Card(id: int, level: int, crown: bool, star: bool, toggle: bool, expanded: bool)

  predicate HasChildren(u: ReferralNode) { |u.directReferrals| > 0 }

  /** The card of `u` itself at `level`. */
  function CardOf(u: ReferralNode, level: int, expanded: set<int>): (c: Card)
    ensures c.id == u.id && c.level == level
    ensures c.crown <==> level == 0
    ensures c.star <==> u.totalReferralsCount > 5
    ensures c.toggle <==> HasChildren(u)
    ensures c.expanded <==> u.id in expanded
  {
    Card(u.id, level, level == 0, u.totalReferralsCount > 5, HasChildren(u), u.id in expanded)
  }

  /** `renderUserCard(u, level)`, top to bottom: the user's card, then,
      when it is expanded and has direct referrals, each referral's cards
      one level deeper. */
  function RenderUserCard(u: ReferralNode, level: int, expanded: set<int>): seq<Card>
    decreases u
  {
    [CardOf(u, level, expanded)]
      + (if u.id in expanded && HasChildren(u) then RenderChildren(u.directReferrals, level + 1, expanded) else [])
  }

  function RenderChildren(children: seq<ReferralNode>, level: int, expanded: set<int>): seq<Card>
    decreases children
  {
    if children == [] then []
    else RenderUserCard(children[0], level, expanded) + RenderChildren(children[1..], level, expanded)
  }

  /** The first card is the user's own; more cards follow exactly when the
      user is expanded and has direct referrals. */
  lemma RenderShape(u: ReferralNode, level: int, expanded: set<int>)
    ensures RenderUserCard(u, level, expanded)[0] == CardOf(u, level, expanded)
    ensures |RenderUserCard(u, level, expanded)| > 1 <==> u.id in expanded && HasChildren(u)
  {
    if u.id in expanded && HasChildren(u) {
      ChildrenNonEmpty(u.directReferrals, level + 1, expanded);
    }
  }

  lemma ChildrenNonEmpty(children: seq<ReferralNode>, level: int, expanded: set<int>)
    requires children != []
    ensures |RenderChildren(children, level, expanded)| >= 1
  {
  }

  /** Every card drawn under a user is at least as deep as that user, and
      every card after the user's own is strictly deeper. */
  lemma {:induction false} RenderLevels(u: ReferralNode, level: int, expanded: set<int>)
    ensures forall c :: c in RenderUserCard(u, level, expanded) ==> c.level >= level
    ensures forall c :: c in RenderUserCard(u, level, expanded)[1..] ==> c.level > level
    decreases u
  {
    var cs := RenderUserCard(u, level, expanded);
    if u.id in expanded && HasChildren(u) {
      ChildrenLevels(u.directReferrals, level + 1, expanded);
      assert cs[1..] == RenderChildren(u.directReferrals, level + 1, expanded);
    } else {
      assert cs[1..] == [];
    }
  }

  lemma {:induction false} ChildrenLevels(children: seq<ReferralNode>, level: int, expanded: set<int>)
    ensures forall c :: c in RenderChildren(children, level, expanded) ==> c.level >= level
    decreases children
  {
    if children != [] {
      RenderLevels(children[0], level, expanded);
      ChildrenLevels(children[1..], level, expanded);
    }
  }

  /** A card carries the crown exactly when it is drawn at level 0; with
      `RenderLevels`, a tree drawn at level 0 has its crown on its first
      card only. */
  lemma {:induction false} CrownOnlyAtZero(u: ReferralNode, level: int, expanded: set<int>)
    ensures forall c :: c in RenderUserCard(u, level, expanded) ==> (c.crown <==> c.level == 0)
    decreases u
  {
    if u.id in expanded && HasChildren(u) {
      ChildrenCrowns(u.directReferrals, level + 1, expanded);
    }
  }

  lemma {:induction false} ChildrenCrowns(children: seq<ReferralNode>, level: int, expanded: set<int>)
    ensures forall c :: c in RenderChildren(children, level, expanded) ==> (c.crown <==> c.level == 0)
    decreases children
  {
    if children != [] {
      CrownOnlyAtZero(children[0], level, expanded);
      ChildrenCrowns(children[1..], level, expanded);
    }
  }

  /** In a tree drawn at level 0 only the first card has the crown. */
  lemma OneCrownPerTree(u: ReferralNode, expanded: set<int>)
    ensures RenderUserCard(u, 0, expanded)[0].crown
    ensures forall c :: c in RenderUserCard(u, 0, expanded)[1..] ==> !c.crown
  {
    RenderLevels(u, 0, expanded);
    CrownOnlyAtZero(u, 0, expanded);
    var cs := RenderUserCard(u, 0, expanded);
    forall c | c in cs[1..] ensures !c.crown {
      assert c in cs;
    }
  }

  /** With nothing expanded each tree is a single card. */
  lemma NothingExpandedOneCard(u: ReferralNode, level: int)
    ensures RenderUserCard(u, level, {}) == [CardOf(u, level, {})]
  {
  }

  /** The number of users in a tree. */
  function TreeSize(u: ReferralNode): nat
    decreases u
  {
    1 + ForestSize(u.directReferrals)
  }

  function ForestSize(children: seq<ReferralNode>): nat
    decreases children
  {
    if children == [] then 0 else TreeSize(children[0]) + ForestSize(children[1..])
  }

  /** No user is drawn more often than it occurs: the cards never outnumber
      the users of the tree. */
  lemma {:induction false} RenderAtMostTreeSize(u: ReferralNode, level: int, expanded: set<int>)
    ensures |RenderUserCard(u, level, expanded)| <= TreeSize(u)
    decreases u
  {
    if u.id in expanded && HasChildren(u) {
      ChildrenAtMostForestSize(u.directReferrals, level + 1, expanded);
    }
  }

  lemma {:induction false} ChildrenAtMostForestSize(children: seq<ReferralNode>, level: int, expanded: set<int>)
    ensures |RenderChildren(children, level, expanded)| <= ForestSize(children)
    decreases children
  {
    if children != [] {
      RenderAtMostTreeSize(children[0], level, expanded);
      ChildrenAtMostForestSize(children[1..], level, expanded);
    }
  }

  /** The overview draws at most the first ten trees. */
  function OverviewTrees(trees: seq<ReferralNode>): (r: seq<ReferralNode>)
    ensures |r| <= 10
    ensures |trees| <= 10 ==> r == trees
    ensures |trees| > 10 ==> r == trees[..10]
  {
    if |trees| <= 10 then trees else trees[..10]
  }

  // ---------------------------------------------------------------------
  // Page state

  class ReferralPage {
    var activeTab: string
    var searchQuery: string
    var selectedUser: Option<ReferralNode>
    var allReferralTrees: seq<ReferralNode>
    var topReferrers: seq<ReferralNode>
    var statistics: Option<ReferralStatistics>
    var loading: bool
    var expandedUsers: set<int>

    constructor()
      ensures activeTab == "overview" && searchQuery == "" && selectedUser == None
      ensures allReferralTrees == [] && topReferrers == [] && statistics == None && !loading
      ensures expandedUsers == {}
    {
      activeTab := "overview";
      searchQuery := "";
      selectedUser := None;
      allReferralTrees := [];
      topReferrers := [];
      statistics := None;
      loading := false;
      expandedUsers := {};
    }

    /** `loadData`: the three answers are awaited together, so either all
        three lists are set or (when any call fails) none is. */
    method LoadDataDone(outcome: Outcome<(seq<ReferralNode>, seq<ReferralNode>, ReferralStatistics)>)
      modifies this
      ensures outcome.Success? ==> allReferralTrees == outcome.data.0 && topReferrers == outcome.data.1
                                   && statistics == Some(outcome.data.2)
      ensures outcome.Failure? ==> allReferralTrees == old(allReferralTrees) && topReferrers == old(topReferrers)
                                   && statistics == old(statistics)
      ensures !loading && activeTab == old(activeTab) && selectedUser == old(selectedUser)
      ensures expandedUsers == old(expandedUsers) && searchQuery == old(searchQuery)
    {
      if outcome.Success? {
        allReferralTrees := outcome.data.0;
        topReferrers := outcome.data.1;
        statistics := Some(outcome.data.2);
      }
      loading := false;
    }

    /** The expand/collapse button of a card. */
    method ToggleUserExpansion(userId: int)
      modifies this
      ensures expandedUsers == Toggle(old(expandedUsers), userId)
      ensures activeTab == old(activeTab) && selectedUser == old(selectedUser) && loading == old(loading)
      ensures allReferralTrees == old(allReferralTrees)
    {
      expandedUsers := Toggle(expandedUsers, userId);
    }

    /** What the overview tab draws. */
    function OverviewCards(): seq<seq<Card>>
      reads this
    {
      var shown := OverviewTrees(allReferralTrees);
      var expanded := expandedUsers;
      seq(|shown|, i requires 0 <= i < |shown| => RenderUserCard(shown[i], 0, expanded))
    }

    /** `handleUserSearch`: a blank query does nothing at all; otherwise the
        query (untrimmed) is looked up, and a found tree becomes the
        selected user and the user-tree tab opens. A failure keeps both. */
    method HandleUserSearch(outcome: Outcome<ReferralNode>) returns (call: Option<Request>)
      modifies this
      ensures IsBlank(old(searchQuery)) ==> (call == None && loading == old(loading)
                                            && selectedUser == old(selectedUser) && activeTab == old(activeTab))
      ensures !IsBlank(old(searchQuery)) ==> call == Some(Plain(ReferralTreeByUsername(old(searchQuery)))) && !loading
      ensures !IsBlank(old(searchQuery)) && outcome.Success? ==> selectedUser == Some(outcome.data) && activeTab == "user-tree"
      ensures !IsBlank(old(searchQuery)) && outcome.Failure? ==> selectedUser == old(selectedUser) && activeTab == old(activeTab)
      ensures searchQuery == old(searchQuery) && expandedUsers == old(expandedUsers)
      ensures allReferralTrees == old(allReferralTrees)
    {
      var query := searchQuery;
      if IsBlank(query) {
        call := None;
      } else {
        call := Some(Plain(ReferralTreeByUsername(query)));
        SearchDone(outcome);
      }
    }

    method SearchDone(outcome: Outcome<ReferralNode>)
      modifies this
      ensures outcome.Success? ==> selectedUser == Some(outcome.data) && activeTab == "user-tree"
      ensures outcome.Failure? ==> selectedUser == old(selectedUser) && activeTab == old(activeTab)
      ensures !loading && searchQuery == old(searchQuery) && expandedUsers == old(expandedUsers)
      ensures allReferralTrees == old(allReferralTrees)
    {
      if outcome.Success? {
        selectedUser := Some(outcome.data);
        activeTab := "user-tree";
      }
      loading := false;
    }

    method SetSearchQuery(text: string)
      modifies this
      ensures searchQuery == text
      ensures activeTab == old(activeTab) && selectedUser == old(selectedUser) && expandedUsers == old(expandedUsers)
    {
      searchQuery := text;
    }

    method SetActiveTab(tab: string)
      modifies this
      ensures activeTab == tab
      ensures searchQuery == old(searchQuery) && selectedUser == old(selectedUser) && expandedUsers == old(expandedUsers)
    {
      activeTab := tab;
    }
  }
}
