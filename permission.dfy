/** The closed set of actions an entity may be granted on a resource
    (permission.go). */
module Permissions {

  /** `All` is the wildcard bucket; the other four are the specific actions. */
  datatype Permission = Create | Read | Update | Delete | All {

    /** The string each constant is declared with. */
    function Value(): (s: string)
      ensures |s| >= 3
      ensures s == "ALL" <==> this == All
    {
      match this
      case Create => "CREATE"
      case Read => "READ"
      case Update => "UPDATE"
      case Delete => "DELETE"
      case All => "ALL"
    }
  }

  /** The five constants, in declaration order of the table buckets created by NewEntity. */
  const AllPermissions: seq<Permission> := [All, Create, Read, Update, Delete]

  /** Exactly five constants exist, and each is listed once. */
  lemma AllPermissionsComplete(p: Permission)
    ensures p in AllPermissions
    ensures |AllPermissions| == 5
    ensures forall i, j :: 0 <= i < j < |AllPermissions| ==> AllPermissions[i] != AllPermissions[j]
  {
  }

  /** The underlying strings are pairwise distinct, so every constant names
      its own table bucket. */
  lemma ValueInjective(p: Permission, q: Permission)
    ensures p.Value() == q.Value() <==> p == q
  {
    if p != q {
      match p
      case Create => assert p.Value()[0] == 'C';
      case Read => assert p.Value()[0] == 'R';
      case Update => assert p.Value()[0] == 'U';
      case Delete => assert p.Value()[0] == 'D';
      case All => assert p.Value()[0] == 'A';
    }
  }

  /** The wildcard is none of the four specific actions, so a query for a
      specific action reads two different buckets. */
  lemma WildcardIsDistinct(p: Permission)
    requires p in [Create, Read, Update, Delete]
    ensures p != All && p.Value() != All.Value()
  {
  }
}
