/** The description by which a Token recognises its authorization. */
module Descriptions {
  import opened Types

  predicate NoDots(s: string) {
    '.' !in s
  }

  function AuthorizationDescription(name: string, namespace: string, uid: Uid): string {
    name + "." + namespace + "." + uid
  }

  /** The format, by example. */
  lemma DescriptionFormat()
    ensures AuthorizationDescription("a", "n", "u") == "a.n.u"
    ensures AuthorizationDescription("a.b", "n", "u") == "a.b.n.u"
  {
  }

  /** What a resource is called on the server: Tokens by description, the others by name. */
  function Title(owner: Owner): string {
    if owner.key.kind == TokenKind
    then AuthorizationDescription(owner.key.name, owner.key.namespace, owner.uid)
    else owner.key.name
  }

  /** Two strings split at their last dot agree on both halves. */
  lemma LastDotSplits(a: string, x: string, b: string, y: string)
    requires NoDots(x) && NoDots(y)
    requires a + "." + x == b + "." + y
    ensures a == b && x == y
  {
    var s := a + "." + x;
    assert s[|a|] == '.' && s[|b|] == '.';
    assert forall i | |a| < i < |s| :: s[i] == x[i - |a| - 1];
    assert forall i | |b| < i < |s| :: s[i] == y[i - |b| - 1];
    assert a == s[..|a|] && b == s[..|b|];
    assert x == s[|a| + 1..] && y == s[|b| + 1..];
  }

  /** Names may contain dots; namespaces and uids may not. Then the description
      determines the name, the namespace and the uid. */
  lemma DescriptionInjective(name: string, namespace: string, uid: Uid, name': string, namespace': string, uid': Uid)
    requires NoDots(namespace) && NoDots(uid) && NoDots(namespace') && NoDots(uid')
    requires AuthorizationDescription(name, namespace, uid) == AuthorizationDescription(name', namespace', uid')
    ensures name == name' && namespace == namespace' && uid == uid'
  {
    LastDotSplits(name + "." + namespace, uid, name' + "." + namespace', uid');
    LastDotSplits(name, namespace, name', namespace');
  }

  /** Without the dot-free namespaces, two different Tokens can share a description. */
  lemma DescriptionCollides()
    ensures AuthorizationDescription("a", "b.c", "u") == AuthorizationDescription("a.b", "c", "u")
    ensures AuthorizationDescription("a", "n.v", "u") == AuthorizationDescription("a", "n", "v.u")
  {
    assert AuthorizationDescription("a", "b.c", "u") == "a.b.c.u" == AuthorizationDescription("a.b", "c", "u");
    assert AuthorizationDescription("a", "n.v", "u") == "a.n.v.u" == AuthorizationDescription("a", "n", "v.u");
  }
}
