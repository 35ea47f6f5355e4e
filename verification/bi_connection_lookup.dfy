/**
 * CallPythonScript.getBiConnection: the bounded, nearest-first walk up the
 * organisation tree that finds the BI connection configuration to export
 * with. The start organisation is asked first, then each parent in turn,
 * at most parentListCount organisations in all.
 */
module BiConnectionLookup {
  import opened Outcomes

  const NULL_CONFIG_ERROR: string := "ETPBIC_NullConfigError"

  type OrgId = string

  /**
   * A BI connection record: where the scripts live and the id of the
   * webhook it refers to (None: the reference is null).
   */
  datatype BiConnection = BiConnection(id: string, repositoryPath: string, webhook: Option<string>)

  /**
   * What the walk can ask about organisations: the parent of each one (an
   * organisation missing from `parent` has a null parent) and the first BI
   * connection record scoped to each one.
   */
  datatype OrgTree = OrgTree(parent: map<OrgId, OrgId>, connections: map<OrgId, BiConnection>)

  /** OrganizationStructureProvider.getParentOrg; the null organisation has no parent. */
  function ParentOrg(tree: OrgTree, org: Option<OrgId>): (r: Option<OrgId>)
    ensures r.Some? <==> org.Some? && org.value in tree.parent
    ensures r.Some? ==> r.value == tree.parent[org.value]
  {
    match org
    case Some(o) => if o in tree.parent then Some(tree.parent[o]) else None
    case None => None
  }

  /** The connection query for one organisation; no record is scoped to the null organisation. */
  function ConnectionAt(tree: OrgTree, org: Option<OrgId>): (r: Option<BiConnection>)
    ensures r.Some? <==> org.Some? && org.value in tree.connections
    ensures r.Some? ==> r.value == tree.connections[org.value]
  {
    match org
    case Some(o) => if o in tree.connections then Some(tree.connections[o]) else None
    case None => None
  }

  /** The k-th ancestor: the organisation itself for k = 0, then its parent, and so on. */
  function Ancestor(tree: OrgTree, org: Option<OrgId>, k: nat): Option<OrgId>
    decreases k
  {
    if k == 0 then org else Ancestor(tree, ParentOrg(tree, org), k - 1)
  }

  /** The connection of the first of `count` successive ancestors that has one. */
  function Nearest(tree: OrgTree, org: Option<OrgId>, count: nat): (r: Option<BiConnection>)
    ensures count > 0 && ConnectionAt(tree, org).Some? ==> r == ConnectionAt(tree, org)
    ensures r.Some? ==> exists k :: 0 <= k < count && r == ConnectionAt(tree, Ancestor(tree, org, k))
    decreases count
  {
    if count == 0 then None
    else if ConnectionAt(tree, org).Some? then
      assert Ancestor(tree, org, 0) == org;
      ConnectionAt(tree, org)
    else
      var parent := ParentOrg(tree, org);
      var r := Nearest(tree, parent, count - 1);
      assert r.Some? ==> exists k :: 0 <= k < count && r == ConnectionAt(tree, Ancestor(tree, org, k)) by {
        if r.Some? {
          var k :| 0 <= k < count - 1 && r == ConnectionAt(tree, Ancestor(tree, parent, k));
          assert Ancestor(tree, org, k + 1) == Ancestor(tree, parent, k);
        }
      }
      r
  }

  /** The lookup as the process sees it: a connection, or the configuration-not-found error. */
  function FindConnection(tree: OrgTree, start: OrgId, parentListCount: nat): (r: Result<BiConnection>)
    ensures r.Err? <==> Nearest(tree, Some(start), parentListCount).None?
    ensures r.Err? ==> r.error == Translated(NULL_CONFIG_ERROR)
    ensures r.Ok? ==> exists k :: 0 <= k < parentListCount && ConnectionAt(tree, Ancestor(tree, Some(start), k)) == Some(r.value)
  {
    match Nearest(tree, Some(start), parentListCount)
    case Some(c) => Ok(c)
    case None => Err(Translated(NULL_CONFIG_ERROR))
  }

  method GetBiConnection(tree: OrgTree, start: OrgId, parentListCount: nat) returns (r: Result<BiConnection>)
    ensures r == FindConnection(tree, start, parentListCount)
    ensures r.Err? ==> r.error == Translated(NULL_CONFIG_ERROR)
  {
    var conf: Option<BiConnection> := None;
    var orgHavingConn: Option<OrgId> := Some(start);
    var i := 0;
    while i < parentListCount && conf.None?
      invariant 0 <= i <= parentListCount
      invariant conf.None? ==> Nearest(tree, orgHavingConn, parentListCount - i) == Nearest(tree, Some(start), parentListCount)
      invariant conf.Some? ==> conf == Nearest(tree, Some(start), parentListCount)
    {
      conf := ConnectionAt(tree, orgHavingConn);
      if conf.None? {
        orgHavingConn := ParentOrg(tree, orgHavingConn);
      }
      i := i + 1;
    }
    if conf.None? {
      return Err(Translated(NULL_CONFIG_ERROR));
    }
    return Ok(conf.value);
  }

  /**
   * Nearest wins: when the k-th ancestor is the first within the bound that
   * has a connection, the lookup returns exactly that connection.
   */
  lemma {:induction false} NearestIsFirstHit(tree: OrgTree, org: Option<OrgId>, count: nat, k: nat)
    requires k < count
    requires ConnectionAt(tree, Ancestor(tree, org, k)).Some?
    requires forall j :: 0 <= j < k ==> ConnectionAt(tree, Ancestor(tree, org, j)).None?
    ensures Nearest(tree, org, count) == ConnectionAt(tree, Ancestor(tree, org, k))
    decreases k
  {
    if k > 0 {
      assert ConnectionAt(tree, Ancestor(tree, org, 0)).None?;
      forall j | 0 <= j < k - 1
        ensures ConnectionAt(tree, Ancestor(tree, ParentOrg(tree, org), j)).None?
      {
        assert Ancestor(tree, org, j + 1) == Ancestor(tree, ParentOrg(tree, org), j);
      }
      NearestIsFirstHit(tree, ParentOrg(tree, org), count - 1, k - 1);
    }
  }

  /** When none of the first `count` ancestors has a connection, the lookup finds none. */
  lemma {:induction false} NearestMissesBeyondBound(tree: OrgTree, org: Option<OrgId>, count: nat)
    requires forall j :: 0 <= j < count ==> ConnectionAt(tree, Ancestor(tree, org, j)).None?
    ensures Nearest(tree, org, count) == None
    decreases count
  {
    if count > 0 {
      assert ConnectionAt(tree, Ancestor(tree, org, 0)).None?;
      forall j | 0 <= j < count - 1
        ensures ConnectionAt(tree, Ancestor(tree, ParentOrg(tree, org), j)).None?
      {
        assert Ancestor(tree, org, j + 1) == Ancestor(tree, ParentOrg(tree, org), j);
      }
      NearestMissesBeyondBound(tree, ParentOrg(tree, org), count - 1);
    }
  }

  /**
   * Whatever the lookup returns is the connection of an ancestor within the
   * bound, and every nearer ancestor has none; `k` is that ancestor's distance.
   */
  lemma {:induction false} NearestIsAnAncestorsConnection(tree: OrgTree, org: Option<OrgId>, count: nat)
    returns (k: nat)
    requires Nearest(tree, org, count).Some?
    ensures k < count && Nearest(tree, org, count) == ConnectionAt(tree, Ancestor(tree, org, k))
    ensures forall j :: 0 <= j < k ==> ConnectionAt(tree, Ancestor(tree, org, j)).None?
    decreases count
  {
    if ConnectionAt(tree, org).Some? {
      k := 0;
    } else {
      var parent := ParentOrg(tree, org);
      var m := NearestIsAnAncestorsConnection(tree, parent, count - 1);
      k := m + 1;
      assert Ancestor(tree, org, k) == Ancestor(tree, parent, m);
      forall j | 0 <= j < k
        ensures ConnectionAt(tree, Ancestor(tree, org, j)).None?
      {
        if j > 0 {
          assert Ancestor(tree, org, j) == Ancestor(tree, parent, j - 1);
        }
      }
    }
  }

  /** Raising the bound never changes a connection already found. */
  lemma {:induction false} NearestIsStable(tree: OrgTree, org: Option<OrgId>, count: nat, more: nat)
    requires count <= more && Nearest(tree, org, count).Some?
    ensures Nearest(tree, org, more) == Nearest(tree, org, count)
    decreases count
  {
    if ConnectionAt(tree, org).None? {
      NearestIsStable(tree, ParentOrg(tree, org), count - 1, more - 1);
    }
  }

  /** A bound of zero organisations always ends in the configuration-not-found error. */
  lemma ZeroBoundFails(tree: OrgTree, start: OrgId)
    ensures FindConnection(tree, start, 0) == Err(Translated(NULL_CONFIG_ERROR))
  {
  }

  /**
   * An organisation with a connection of its own gets that connection, even
   * when the bound is a single organisation.
   */
  lemma OwnConnectionWins(tree: OrgTree, start: OrgId, parentListCount: nat)
    requires parentListCount >= 1 && start in tree.connections
    ensures FindConnection(tree, start, parentListCount) == Ok(tree.connections[start])
  {
  }

  /**
   * Chain A (root) <- B <- C with a connection only on B: starting from C
   * with a bound of 3 finds B's connection; with a bound of 1 it never
   * reaches B and fails.
   */
  lemma ParentChainExample(b: BiConnection)
    ensures FindConnection(OrgTree(map["C" := "B", "B" := "A"], map["B" := b]), "C", 3) == Ok(b)
    ensures FindConnection(OrgTree(map["C" := "B", "B" := "A"], map["B" := b]), "C", 1)
            == Err(Translated(NULL_CONFIG_ERROR))
  {
    var tree := OrgTree(map["C" := "B", "B" := "A"], map["B" := b]);
    assert ParentOrg(tree, Some("C")) == Some("B");
    assert ConnectionAt(tree, Some("C")) == None;
    assert ConnectionAt(tree, Some("B")) == Some(b);
  }
}
