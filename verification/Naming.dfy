/** The dash-joined names of CheckpointBackups and of their policies, and when they collide. */
module Naming {

  function BackupName(migration: string, pod: string, cluster: string): string {
    migration + "-" + pod + "-" + cluster
  }

  function PolicyName(backup: string): string {
    backup + "-policy"
  }

  /** `long` is `short` with a dash and possibly more text in front. */
  ghost predicate DashSuffix(long: string, short: string) {
    exists x: string :: long == x + "-" + short
  }

  /** `long` is `short` followed by a dash and possibly more text. */
  ghost predicate DashPrefix(long: string, short: string) {
    exists y: string :: long == short + "-" + y
  }

  lemma SplitRight(a: string, b: string, a': string, b': string)
    requires a + "-" + b == a' + "-" + b'
    requires |b| > |b'|
    ensures DashSuffix(b, b')
  {
    var s := a + "-" + b;
    var d := |b| - |b'| - 1;
    assert b == s[|a| + 1..];
    assert "-" + b' == s[|a'|..] by {
      assert s == a' + ("-" + b');
    }
    assert b[d..] == s[|a'|..];
    assert b == b[..d] + b[d..];
    assert b == b[..d] + ("-" + b') == b[..d] + "-" + b';
  }

  /** Within one migration two different (pod, cluster) pairs can share a backup name exactly when
      one cluster name ends in a dash followed by the other. */
  lemma CollisionWithin(migration: string, c: string, c': string)
    ensures (exists p, p' :: (p != p' || c != c') && BackupName(migration, p, c) == BackupName(migration, p', c'))
       <==> DashSuffix(c, c') || DashSuffix(c', c)
  {
    if p, p' :| (p != p' || c != c') && BackupName(migration, p, c) == BackupName(migration, p', c') {
      SameMigrationCollision(migration, p, c, p', c');
    }
    if DashSuffix(c, c') {
      var x :| c == x + "-" + c';
      DashSuffixCollides(migration, "", c, x, c');
      assert BackupName(migration, "", c) == BackupName(migration, "" + "-" + x, c');
    }
    if DashSuffix(c', c) {
      var x :| c' == x + "-" + c;
      DashSuffixCollides(migration, "", c', x, c);
      assert BackupName(migration, "" + "-" + x, c) == BackupName(migration, "", c');
    }
  }

  lemma SameMigrationCollision(migration: string, p: string, c: string, p': string, c': string)
    requires BackupName(migration, p, c) == BackupName(migration, p', c')
    ensures (p == p' && c == c') || DashSuffix(c, c') || DashSuffix(c', c)
  {
    var a, a' := migration + "-" + p, migration + "-" + p';
    if |c| > |c'| {
      SplitRight(a, c, a', c');
    } else if |c'| > |c| {
      SplitRight(a', c', a, c);
    } else {
      var s := BackupName(migration, p, c);
      assert c == s[|s| - |c|..] == c';
      assert a == s[..|a|] == a';
      assert p == a[|migration| + 1..] == p';
    }
  }

  /** The backups of one pod never collide. */
  lemma SamePodSameCluster(migration: string, pod: string, c: string, c': string)
    requires BackupName(migration, pod, c) == BackupName(migration, pod, c')
    ensures c == c'
  {
    var prefix := migration + "-" + pod + "-";
    assert c == BackupName(migration, pod, c)[|prefix|..];
    assert c' == BackupName(migration, pod, c')[|prefix|..];
  }

  /** Every pod name takes part in a collision when one cluster name dash-ends in another. */
  lemma DashSuffixCollides(migration: string, pod: string, c: string, x: string, c': string)
    requires c == x + "-" + c'
    ensures BackupName(migration, pod, c) == BackupName(migration, pod + "-" + x, c')
    ensures c != c'
  {
    assert migration + "-" + pod + "-" + (x + "-" + c') == migration + "-" + (pod + "-" + x) + "-" + c';
    assert |c| > |c'|;
  }

  lemma SplitLeft(a: string, b: string, a': string, b': string)
    requires a + "-" + b == a' + "-" + b'
    requires |a| > |a'|
    ensures DashPrefix(a, a')
  {
    var s := a + "-" + b;
    assert a == s[..|a|];
    assert a' + "-" == s[..|a'| + 1];
    var y := a[|a'| + 1..];
    assert a == a[..|a'| + 1] + y;
    assert a == a' + "-" + y;
  }

  lemma SameLengthLeft(a: string, b: string, a': string, b': string)
    requires a + "-" + b == a' + "-" + b'
    requires |a| == |a'|
    ensures a == a'
  {
    assert a == (a + "-" + b)[..|a|];
    assert a' == (a' + "-" + b')[..|a'|];
  }

  /** Two migrations of one namespace can share a backup name exactly when one migration name
      followed by a dash is a prefix of the other. */
  lemma CollisionAcross(m: string, m': string)
    requires m != m'
    ensures (exists p, c, p', c' :: BackupName(m, p, c) == BackupName(m', p', c'))
       <==> DashPrefix(m, m') || DashPrefix(m', m)
  {
    if p, c, p', c' :| BackupName(m, p, c) == BackupName(m', p', c') {
      var b, b' := p + "-" + c, p' + "-" + c';
      assert m + "-" + b == m' + "-" + b' by {
        assert BackupName(m, p, c) == m + "-" + b;
        assert BackupName(m', p', c') == m' + "-" + b';
      }
      if |m| > |m'| {
        SplitLeft(m, b, m', b');
      } else if |m'| > |m| {
        SplitLeft(m', b', m, b);
      } else {
        SameLengthLeft(m, b, m', b');
      }
    }
    if DashPrefix(m, m') {
      var y :| m == m' + "-" + y;
      DashPrefixCollides(m, m', y);
    }
    if DashPrefix(m', m) {
      var y :| m' == m + "-" + y;
      DashPrefixCollides(m', m, y);
    }
  }

  lemma DashPrefixCollides(m: string, m': string, y: string)
    requires m == m' + "-" + y
    ensures BackupName(m, "", "") == BackupName(m', y + "-", "")
  {
    assert m' + "-" + y + "-" + "" + "-" + "" == m' + "-" + (y + "-") + "-" + "";
  }

  /** A set of (pod, cluster) pairs whose names are pairwise different. */
  ghost predicate Injective(migration: string, pods: set<string>, clusters: set<string>) {
    forall p, c, p', c' | p in pods && p' in pods && c in clusters && c' in clusters ::
      BackupName(migration, p, c) == BackupName(migration, p', c') ==> p == p' && c == c'
  }

  /** The check a user can make before writing `sourceClusters`: it decides injectivity for every
      choice of pods, whatever the pods are called. */
  lemma InjectiveForAllPods(migration: string, clusters: set<string>)
    ensures (forall pods: set<string> :: Injective(migration, pods, clusters))
       <==> (forall c, c' :: c in clusters && c' in clusters ==> !DashSuffix(c, c'))
  {
    if forall c, c' :: c in clusters && c' in clusters ==> !DashSuffix(c, c') {
      forall pods: set<string> ensures Injective(migration, pods, clusters) {
        forall p, c, p', c' | p in pods && p' in pods && c in clusters && c' in clusters &&
          BackupName(migration, p, c) == BackupName(migration, p', c')
          ensures p == p' && c == c'
        {
          SameMigrationCollision(migration, p, c, p', c');
        }
      }
    }
    if c, c' :| c in clusters && c' in clusters && DashSuffix(c, c') {
      var x :| c == x + "-" + c';
      DashSuffixCollides(migration, "", c, x, c');
      assert !Injective(migration, {"", "" + "-" + x}, clusters);
    }
  }

  lemma PolicyNameInjective(b: string, b': string)
    requires PolicyName(b) == PolicyName(b')
    ensures b == b'
  {
    assert b == PolicyName(b)[..|b|];
    assert b' == PolicyName(b')[..|b'|];
  }

  /** The policy of the shared namespace is never the policy of a backup. */
  lemma NamespacePolicyIsNoBackupPolicy(b: string)
    ensures PolicyName(b) != "stateful-migration" + "-propagation"
  {
    var ns := "stateful-migration" + "-propagation";
    assert ns[|ns| - 1] == 'n';
    assert PolicyName(b)[|PolicyName(b)| - 1] == 'y';
  }
}
