/** Namespaced names, their printed form, and the names an Application's children are given. */
module Names {
  datatype NamespacedName = NamespacedName(namespace: string, name: string) {
    /** The printed form, used as owner annotation, index value and job key. */
    function String(): string {
      namespace + "/" + name
    }
  }

  datatype RoleRef = RoleRef(apiGroup: string, kind: string, name: string)

  /** What the API server guarantees of an Application's name: a namespace is present and holds no slash. */
  predicate ValidName(n: NamespacedName) {
    n.namespace != "" && '/' !in n.namespace
  }

  function Lower(s: string): (r: string)
    ensures |r| == |s|
  {
    seq(|s|, i requires 0 <= i < |s| => if 'A' <= s[i] <= 'Z' then ((s[i] as int) + 32) as char else s[i])
  }

  /** Lowering leaves no capital, touches nothing else, and does so once and for all. */
  lemma LowerIsLower(s: string)
    ensures forall i :: 0 <= i < |s| ==> !('A' <= Lower(s)[i] <= 'Z')
    ensures forall i :: 0 <= i < |s| ==> if 'A' <= s[i] <= 'Z' then 'a' <= Lower(s)[i] <= 'z' else Lower(s)[i] == s[i]
    ensures forall c, d :: 'A' <= c <= d <= 'Z' ==> (Lower([c, d])[1] as int) - (Lower([c, d])[0] as int) == (d as int) - (c as int)
    ensures Lower(Lower(s)) == Lower(s)
  {
  }

  function LBServiceName(app: NamespacedName): NamespacedName {
    app.(name := app.name + "-loadbalancer")
  }

  function RoleBindingName(app: NamespacedName, role: RoleRef): NamespacedName {
    app.(name := app.name + "-" + Lower(role.kind) + "-" + role.name)
  }

  function ClusterRoleBindingName(app: NamespacedName, role: RoleRef): NamespacedName {
    NamespacedName("", app.namespace + "-" + app.name + "-" + Lower(role.kind) + "-" + role.name)
  }

  function CronJobName(app: NamespacedName, job: string): NamespacedName {
    app.(name := app.name + "-" + job)
  }

  /** The first of the names that is one of those looked for. */
  ghost predicate FirstOf(names: seq<string>, wanted: set<string>, name: string) {
    exists i :: 0 <= i < |names| && names[i] == name && name in wanted && forall j :: 0 <= j < i ==> names[j] !in wanted
  }

  lemma FirstOfRest(names: seq<string>, wanted: set<string>, name: string)
    requires names != [] && names[0] !in wanted && FirstOf(names[1..], wanted, name)
    ensures FirstOf(names, wanted, name)
  {
    var i :| 0 <= i < |names[1..]| && names[1..][i] == name && forall j :: 0 <= j < i ==> names[1..][j] !in wanted;
    assert names[i + 1] == name;
    forall j | 0 <= j < i + 1
      ensures names[j] !in wanted
    {
      assert j > 0 ==> names[1..][j - 1] == names[j];
    }
  }

  /** The position of the first occurrence of a character, or the length when there is none. */
  function IndexOf(s: string, c: char): (i: nat)
    ensures i <= |s| && c !in s[..i] && (i < |s| ==> s[i] == c)
  {
    if s == "" || s[0] == c then 0 else 1 + IndexOf(s[1..], c)
  }

  lemma {:induction false} IndexAfterPrefix(x: string, y: string, c: char)
    requires c !in x
    ensures IndexOf(x + [c] + y, c) == |x|
  {
    if x != "" {
      assert x[0] != c;
      assert (x + [c] + y)[1..] == x[1..] + [c] + y;
      IndexAfterPrefix(x[1..], y, c);
    }
  }

  /** A string splits in one way at the first occurrence of a separator. */
  lemma FirstSplitUnique(x: string, y: string, x': string, y': string, c: char)
    requires x + [c] + y == x' + [c] + y'
    requires c !in x && c !in x'
    ensures x == x' && y == y'
  {
    IndexAfterPrefix(x, y, c);
    IndexAfterPrefix(x', y', c);
    var s := x + [c] + y;
    assert x == s[..|x|] == x';
    assert y == s[|x| + 1..] == y';
  }

  /** The printed form identifies a valid name, so comparing owner annotations compares owners. */
  lemma StringInjective(a: NamespacedName, b: NamespacedName)
    requires '/' !in a.namespace && '/' !in b.namespace && a.String() == b.String()
    ensures a == b
  {
    FirstSplitUnique(a.namespace, a.name, b.namespace, b.name, '/');
  }

  lemma SuffixUnique(prefix: string, x: string, y: string)
    requires prefix + x == prefix + y
    ensures x == y
  {
    assert (prefix + x)[|prefix|..] == x;
    assert (prefix + y)[|prefix|..] == y;
  }

  /** For one Application a binding name determines the lowered role kind and the role name. */
  lemma BindingNamesInjective(app: NamespacedName, a: RoleRef, b: RoleRef)
    requires '-' !in Lower(a.kind) && '-' !in Lower(b.kind)
    ensures RoleBindingName(app, a) == RoleBindingName(app, b) <==> Lower(a.kind) == Lower(b.kind) && a.name == b.name
    ensures ClusterRoleBindingName(app, a) == ClusterRoleBindingName(app, b)
            <==> Lower(a.kind) == Lower(b.kind) && a.name == b.name
  {
    var p := app.name + "-";
    var q := app.namespace + "-" + app.name + "-";
    var ra, rb := Lower(a.kind) + ['-'] + a.name, Lower(b.kind) + ['-'] + b.name;
    assert RoleBindingName(app, a).name == p + ra && RoleBindingName(app, b).name == p + rb;
    assert ClusterRoleBindingName(app, a).name == q + ra && ClusterRoleBindingName(app, b).name == q + rb;
    if p + ra == p + rb || q + ra == q + rb {
      if p + ra == p + rb {
        SuffixUnique(p, ra, rb);
      } else {
        SuffixUnique(q, ra, rb);
      }
      FirstSplitUnique(Lower(a.kind), a.name, Lower(b.kind), b.name, '-');
    }
  }

  /** For one Application a cron job name determines the job. */
  lemma CronJobNamesInjective(app: NamespacedName, a: string, b: string)
    ensures CronJobName(app, a) == CronJobName(app, b) <==> a == b
  {
    if CronJobName(app, a) == CronJobName(app, b) {
      SuffixUnique(app.name + "-", a, b);
    }
  }

  lemma LBServiceNameDiffers(app: NamespacedName)
    ensures LBServiceName(app) != app
  {
    assert |LBServiceName(app).name| > |app.name|;
  }

  /** Across Applications the dash-joined names do collide, both for cron jobs and for cluster role bindings. */
  lemma ChildNamesCollideAcrossApplications()
    ensures CronJobName(NamespacedName("ns", "a"), "b-c") == CronJobName(NamespacedName("ns", "a-b"), "c")
    ensures var role := RoleRef("rbac.authorization.k8s.io", "ClusterRole", "r");
            ClusterRoleBindingName(NamespacedName("a", "b-c"), role)
            == ClusterRoleBindingName(NamespacedName("a-b", "c"), role)
  {
    assert "a" + "-" + "b-c" == "a-b" + "-" + "c";
  }
}
