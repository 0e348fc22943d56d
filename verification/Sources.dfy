/**
 Where a job's directories lie on the shared storage: directly under a root, under the name of the job.
 */
module Sources {

  function TrimRight(s: string): string {
    if s != "" && s[|s| - 1] == '/' then TrimRight(s[..|s| - 1]) else s
  }

  function TrimLeft(s: string): string {
    if s != "" && s[0] == '/' then TrimLeft(s[1..]) else s
  }

  function JoinSource(root: string, child: string): string {
    TrimRight(root) + "/" + TrimLeft(child)
  }

  /** The root is this text and perhaps slashes behind it, and the text does not end with one. */
  predicate Rooted(root: string, base: string) {
    && base <= root
    && (forall k :: |base| <= k < |root| ==> root[k] == '/')
    && (base != "" ==> base[|base| - 1] != '/')
  }

  /** The path is the root without slashes at its end, one slash, and the name. */
  ghost predicate Under(root: string, name: string, path: string) {
    exists base :: Rooted(root, base) && path == base + "/" + name
  }

  lemma {:induction false} TrimmedIsRooted(root: string)
    ensures Rooted(root, TrimRight(root))
  {
    if root != "" && root[|root| - 1] == '/' {
      TrimmedIsRooted(root[..|root| - 1]);
    }
  }

  /** A name that does not begin with a slash is joined to a root in just this way. */
  lemma JoinedIsUnder(root: string, name: string)
    requires name != "" && name[0] != '/'
    ensures Under(root, name, JoinSource(root, name))
  {
    TrimmedIsRooted(root);
  }

  lemma BaseIsUnique(root: string, a: string, b: string)
    requires Rooted(root, a) && Rooted(root, b)
    ensures a == b
  {
    assert a != "" ==> root[|a| - 1] == a[|a| - 1];
    assert b != "" ==> root[|b| - 1] == b[|b| - 1];
    assert |a| == |b|;
  }

  /** Different names never share a path. */
  lemma NamesDoNotShare(root: string, a: string, b: string, path: string)
    requires Under(root, a, path) && Under(root, b, path)
    ensures a == b
  {
    var base :| Rooted(root, base) && path == base + "/" + a;
    var other :| Rooted(root, other) && path == other + "/" + b;
    BaseIsUnique(root, base, other);
    assert a == path[|base| + 1..] && b == path[|other| + 1..];
  }
}
