/** Copying an object to other namespaces, and the references it makes. */
module PlannerRenaming {
  import opened Common
  import opened PlannerJson

  /** What of the replication specification decides the copy; patches are left out. */
  datatype Spec = Spec(namespaces: map<string, string>, emptyVolumes: bool, storageClasses: map<string, string>)

  /** Without a specification every name maps to itself and no data mode is set. */
  const NO_SPEC := Spec(map[], false, map[])

  function Namespace(spec: Spec, source: string): string {
    if source in spec.namespaces && spec.namespaces[source] != "" then spec.namespaces[source] else source
  }

  // ---------------------------------------------------------------- rewriting namespaces

  /** What the enclosing keys make of a value: only known reference shapes are rewritten. */
  datatype Place = Plain | Subjects | Subject | Client | Service

  function PlaceOf(place: Place, key: string): Place {
    if key == "subjects" then Subjects
    else if key == "clientConfig" || key == "webhook" then Client
    else if key == "service" && place == Client then Service
    else Plain
  }

  /** Whether the object at this place names a namespace to be mapped. */
  predicate Names(place: Place, v: Json) {
    (place == Subject && Get(v, "kind") == Some(Str("ServiceAccount"))) || place == Service
  }

  function Rewritten(spec: Spec, place: Place, v: Json): Json
    decreases v
  {
    match v
    case Obj(fields) =>
      Obj(map key | key in fields ::
        if key == "namespace" && Names(place, v) && fields[key].Str? then Str(Namespace(spec, fields[key].text))
        else if key == "data" || key == "stringData" then fields[key]
        else Rewritten(spec, PlaceOf(place, key), fields[key]))
    case Arr(items) => Arr(seq(|items|, i requires 0 <= i < |items| => Rewritten(spec, if place == Subjects then Subject else Plain, items[i])))
    case _ => v
  }

  /** Rewriting changes no string except mapped namespaces, and no shape. */
  lemma RewrittenGet(spec: Spec, place: Place, v: Json, key: string)
    requires key != "namespace" && key != "data" && key != "stringData"
    ensures Get(Rewritten(spec, place, v), key) ==
      match Get(v, key) case Some(x) => Some(Rewritten(spec, PlaceOf(place, key), x)) case None => None
  {}

  lemma RewrittenShape(spec: Spec, place: Place, v: Json)
    ensures Rewritten(spec, place, v).Obj? == v.Obj? && Rewritten(spec, place, v).Arr? == v.Arr? && Rewritten(spec, place, v).Str? == v.Str?
    ensures (Rewritten(spec, place, v) == Null) == (v == Null)
    ensures v.Str? ==> Rewritten(spec, place, v) == v
    ensures v.Obj? ==> Rewritten(spec, place, v).fields.Keys == v.fields.Keys
    ensures v.Arr? ==> |Rewritten(spec, place, v).items| == |v.items|
  {}

  lemma RewrittenText(spec: Spec, place: Place, v: Json, key: string)
    requires key != "namespace" && key != "data" && key != "stringData"
    ensures TextOf(Rewritten(spec, place, v), key) == TextOf(v, key)
  {
    RewrittenGet(spec, place, v, key);
    if Get(v, key).Some? { RewrittenShape(spec, PlaceOf(place, key), Get(v, key).value); }
    NestedStep(v, [key], key);
    NestedStep(Rewritten(spec, place, v), [key], key);
  }

  predicate Through(path: seq<string>) {
    exists i :: 0 <= i < |path| && (path[i] == "data" || path[i] == "stringData")
  }

  /** Configuration and secret contents are never rewritten, at any depth. */
  lemma {:induction false} DataUntouched(spec: Spec, place: Place, v: Json, path: seq<string>)
    requires Through(path)
    ensures Nested(Rewritten(spec, place, v), path) == Nested(v, path)
    decreases path
  {
    var key := path[0];
    NestedStep(v, path, key);
    NestedStep(Rewritten(spec, place, v), path, key);
    if v.Obj? && key in v.fields && key != "data" && key != "stringData" {
      var i :| 0 <= i < |path| && (path[i] == "data" || path[i] == "stringData");
      assert path[1..][i - 1] == path[i];
      if key == "namespace" && Names(place, v) && v.fields[key].Str? {
      } else {
        DataUntouched(spec, PlaceOf(place, key), v.fields[key], path[1..]);
      }
    }
  }

  // ---------------------------------------------------------------- references

  datatype Ref = Ref(group: string, kind: string, ns: string, name: string)

  /** A reference with an empty name is not a reference. */
  ghost function One(group: string, kind: string, ns: string, name: string): set<Ref> {
    if name == "" then {} else {Ref(group, kind, ns, name)}
  }

  /** The reference an object makes by standing under a known key. */
  ghost function Under(key: string, m: Json, ns: string): set<Ref>
    requires m.Obj?
  {
    if key == "secretKeyRef" || key == "secretRef" then One("", "Secret", ns, TextOf(m, "name"))
    else if key == "secret" then
      One("", "Secret", ns, TextOf(m, if Get(m, "secretName") == None || Get(m, "secretName") == Some(Null) then "name" else "secretName"))
    else if key == "configMapKeyRef" || key == "configMapRef" || key == "configMap" then One("", "ConfigMap", ns, TextOf(m, "name"))
    else if key == "persistentVolumeClaim" then One("", "PersistentVolumeClaim", ns, TextOf(m, "claimName"))
    else {}
  }

  /** References anywhere inside a Pod template. */
  ghost function Walked(v: Json, ns: string): set<Ref>
    decreases v
  {
    match v
    case Obj(fields) =>
      (set key, r | key in fields && fields[key].Obj? && r in Under(key, fields[key], ns) :: r) +
      (set key, r | key in fields && r in Walked(fields[key], ns) :: r)
    case Arr(items) => set i, r | 0 <= i < |items| && r in Walked(items[i], ns) :: r
    case _ => {}
  }

  /** The secrets named by a list of pull secrets. */
  ghost function Pulls(v: Option<Json>, ns: string): set<Ref> {
    if v.Some? && v.value.Arr? then
      set i, r | 0 <= i < |v.value.items| && v.value.items[i].Obj? && r in One("", "Secret", ns, TextOf(v.value.items[i], "name")) :: r
    else {}
  }

  function PodPath(kind: string): Option<seq<string>> {
    if kind in {"Deployment", "StatefulSet", "DaemonSet", "Job", "ReplicaSet"} then Some(["spec", "template", "spec"])
    else if kind == "CronJob" then Some(["spec", "jobTemplate", "spec", "template", "spec"])
    else None
  }

  ghost function AccountRefs(pod: Json, ns: string): set<Ref> {
    var account := TextOf(pod, "serviceAccountName");
    if account == "default" then {} else One("", "ServiceAccount", ns, account)
  }

  ghost function PodRefs(pod: Json, ns: string): set<Ref> {
    AccountRefs(pod, ns) + Pulls(Get(pod, "imagePullSecrets"), ns) + Walked(pod, ns)
  }

  const RBAC := "rbac.authorization.k8s.io"

  ghost function RoleRefs(role: Json, ns: string): set<Ref> {
    var kind := TextOf(role, "kind");
    One(RBAC, kind, if kind == "ClusterRole" then "" else ns, TextOf(role, "name"))
  }

  ghost function SubjectRefs(subjects: Option<Json>): set<Ref> {
    if subjects.Some? && subjects.value.Arr? then
      set i, r | 0 <= i < |subjects.value.items| && Get(subjects.value.items[i], "kind") == Some(Str("ServiceAccount")) &&
        r in One("", "ServiceAccount", TextOf(subjects.value.items[i], "namespace"), TextOf(subjects.value.items[i], "name")) :: r
    else {}
  }

  /** The group of an apiVersion: what precedes its only slash; more slashes are invalid. */
  function GroupOf(version: string): Option<string> {
    if version == "" || version == "/" then Some("")
    else
      var n := Slashes(version);
      if n == 0 then Some("") else if n == 1 then Some(BeforeSlash(version)) else None
  }

  function Slashes(s: string): nat {
    if s == [] then 0 else (if s[0] == '/' then 1 else 0) + Slashes(s[1..])
  }

  function BeforeSlash(s: string): string {
    if s == [] || s[0] == '/' then [] else [s[0]] + BeforeSlash(s[1..])
  }

  ghost function ScaleRefs(target: Json, ns: string): set<Ref> {
    var group := GroupOf(TextOf(target, "apiVersion"));
    if group.Some? then One(group.value, TextOf(target, "kind"), ns, TextOf(target, "name")) else {}
  }

  function KindOf(v: Json): string { TextOf(v, "kind") }

  function NamespaceOf(v: Json): string { NestedStr(v, ["metadata", "namespace"]) }

  /** An object that is not there reads as an empty one. */
  function ObjOr(v: Option<Json>): Json {
    if v.Some? && v.value.Obj? then v.value else Obj(map[])
  }

  /** The parts of an object that can refer to others. */
  datatype View = View(kind: string, ns: string, pod: Option<Json>, pulls: Option<Json>, role: Json, subjects: Option<Json>,
    policy: string, target: Json)

  function ViewOf(v: Json): View {
    var kind := KindOf(v);
    View(kind, NamespaceOf(v), if PodPath(kind).Some? then NestedObj(v, PodPath(kind).value) else None,
         Nested(v, ["imagePullSecrets"]), ObjOr(Nested(v, ["roleRef"])), Nested(v, ["subjects"]),
         NestedStr(v, ["spec", "policyName"]), ObjOr(Nested(v, ["spec", "scaleTargetRef"])))
  }

  ghost function PodPart(w: View): set<Ref> { if w.pod.Some? then PodRefs(w.pod.value, w.ns) else {} }

  ghost function PullPart(w: View): set<Ref> { if w.kind == "ServiceAccount" then Pulls(w.pulls, w.ns) else {} }

  ghost function BindingPart(w: View): set<Ref> {
    if w.kind == "RoleBinding" || w.kind == "ClusterRoleBinding" then RoleRefs(w.role, w.ns) + SubjectRefs(w.subjects) else {}
  }

  ghost function PolicyPart(w: View): set<Ref> {
    if w.kind == "ValidatingAdmissionPolicyBinding" then
      One("admissionregistration.k8s.io", "ValidatingAdmissionPolicy", "", w.policy)
    else {}
  }

  ghost function ScalePart(w: View): set<Ref> {
    if w.kind == "HorizontalPodAutoscaler" then ScaleRefs(w.target, w.ns) else {}
  }

  ghost function Refers(w: View): set<Ref> {
    PodPart(w) + PullPart(w) + BindingPart(w) + PolicyPart(w) + ScalePart(w)
  }

  /** Everything an object refers to.  The planner sorts the identifiers of these
      references and drops repetitions. */
  ghost function Dependencies(v: Json): set<Ref> { Refers(ViewOf(v)) }

  // ---------------------------------------------------------------- rewriting keeps references

  lemma UnderRewritten(spec: Spec, place: Place, key: string, m: Json, ns: string)
    requires m.Obj?
    ensures Rewritten(spec, place, m).Obj? && Under(key, Rewritten(spec, place, m), ns) == Under(key, m, ns)
  {
    RewrittenText(spec, place, m, "name");
    RewrittenText(spec, place, m, "secretName");
    RewrittenText(spec, place, m, "claimName");
    RewrittenGet(spec, place, m, "secretName");
    if "secretName" in m.fields { RewrittenShape(spec, PlaceOf(place, "secretName"), m.fields["secretName"]); }
  }

  /** A rewritten value keeps its type, so what stands under a key stays a reference. */
  lemma {:induction false} WalkedRewritten(spec: Spec, place: Place, v: Json, ns: string)
    ensures Walked(Rewritten(spec, place, v), ns) == Walked(v, ns)
    decreases v
  {
    hide Under;
    match v
    case Obj(fields) =>
      var t := Rewritten(spec, place, v);
      forall key | key in fields
        ensures t.fields[key].Obj? == fields[key].Obj? && Walked(t.fields[key], ns) == Walked(fields[key], ns)
        ensures fields[key].Obj? ==> Under(key, t.fields[key], ns) == Under(key, fields[key], ns)
      {
        if key == "namespace" && Names(place, v) && fields[key].Str? {
        } else if key == "data" || key == "stringData" {
        } else {
          WalkedRewritten(spec, PlaceOf(place, key), fields[key], ns);
          RewrittenShape(spec, PlaceOf(place, key), fields[key]);
          if fields[key].Obj? { UnderRewritten(spec, PlaceOf(place, key), key, fields[key], ns); }
        }
      }
    case Arr(items) =>
      forall i | 0 <= i < |items| ensures Walked(Rewritten(spec, place, v).items[i], ns) == Walked(items[i], ns) {
        WalkedRewritten(spec, if place == Subjects then Subject else Plain, items[i], ns);
      }
    case _ =>
  }

  /** A reference with its namespace mapped. */
  function Mapped(spec: Spec, r: Ref): Ref { r.(ns := Namespace(spec, r.ns)) }

  ghost function Image(spec: Spec, refs: set<Ref>): set<Ref> { set r | r in refs :: Mapped(spec, r) }

  lemma ImageUnion(spec: Spec, a: set<Ref>, b: set<Ref>)
    ensures Image(spec, a + b) == Image(spec, a) + Image(spec, b)
  {}

  /** References of one namespace move with it. */
  lemma UnderMoves(spec: Spec, key: string, m: Json, ns: string)
    requires m.Obj?
    ensures Under(key, m, Namespace(spec, ns)) == Image(spec, Under(key, m, ns))
  {}

  lemma {:induction false} WalkedMoves(spec: Spec, v: Json, ns: string)
    ensures Walked(v, Namespace(spec, ns)) == Image(spec, Walked(v, ns))
    decreases v
  {
    hide Under, Namespace, Mapped;
    var to := Namespace(spec, ns);
    match v
    case Obj(fields) =>
      forall key | key in fields
        ensures Walked(fields[key], to) == Image(spec, Walked(fields[key], ns))
        ensures fields[key].Obj? ==> Under(key, fields[key], to) == Image(spec, Under(key, fields[key], ns))
      {
        WalkedMoves(spec, fields[key], ns);
        if fields[key].Obj? { UnderMoves(spec, key, fields[key], ns); }
      }
      assert forall r :: r in Walked(v, to) ==> r in Image(spec, Walked(v, ns));
      forall q | q in Walked(v, ns) ensures Mapped(spec, q) in Walked(v, to) {
        if key :| key in fields && fields[key].Obj? && q in Under(key, fields[key], ns) {
          assert Mapped(spec, q) in Under(key, fields[key], to);
        } else {
          var key :| key in fields && q in Walked(fields[key], ns);
          assert Mapped(spec, q) in Walked(fields[key], to);
        }
      }
    case Arr(items) =>
      forall i | 0 <= i < |items| ensures Walked(items[i], to) == Image(spec, Walked(items[i], ns)) { WalkedMoves(spec, items[i], ns); }
      assert forall r :: r in Walked(v, to) ==> r in Image(spec, Walked(v, ns));
      forall q | q in Walked(v, ns) ensures Mapped(spec, q) in Walked(v, to) {
        var i :| 0 <= i < |items| && q in Walked(items[i], ns);
        assert Mapped(spec, q) in Walked(items[i], to);
      }
    case _ =>
  }

  ghost function PullRef(m: Json, ns: string): set<Ref> {
    if m.Obj? then One("", "Secret", ns, TextOf(m, "name")) else {}
  }

  lemma PullsList(v: Json, ns: string)
    requires v.Arr?
    ensures forall r :: r in Pulls(Some(v), ns) <==> exists i :: 0 <= i < |v.items| && r in PullRef(v.items[i], ns)
  {}

  lemma PullRewritten(spec: Spec, m: Json, ns: string)
    ensures PullRef(Rewritten(spec, Plain, m), Namespace(spec, ns)) == Image(spec, PullRef(m, ns))
  {
    RewrittenShape(spec, Plain, m);
    RewrittenText(spec, Plain, m, "name");
  }

  lemma PullsRewritten(spec: Spec, v: Option<Json>, ns: string)
    ensures Pulls(if v.Some? then Some(Rewritten(spec, Plain, v.value)) else None, Namespace(spec, ns)) == Image(spec, Pulls(v, ns))
  {
    if v.Some? && v.value.Arr? {
      var items := v.value.items;
      var after := Rewritten(spec, Plain, v.value).items;
      var to := Namespace(spec, ns);
      forall i | 0 <= i < |items| ensures PullRef(after[i], to) == Image(spec, PullRef(items[i], ns)) {
        PullRewritten(spec, items[i], ns);
      }
      hide PullRef, Pulls;
      PullsList(v.value, ns);
      PullsList(Rewritten(spec, Plain, v.value), to);
      forall q | q in Pulls(v, ns) ensures Mapped(spec, q) in Pulls(Some(Rewritten(spec, Plain, v.value)), to) {
        var i :| 0 <= i < |items| && q in PullRef(items[i], ns);
        assert Mapped(spec, q) in PullRef(after[i], to);
      }
      forall q | q in Pulls(Some(Rewritten(spec, Plain, v.value)), to) ensures q in Image(spec, Pulls(v, ns)) {
        var i :| 0 <= i < |items| && q in PullRef(after[i], to);
        var r :| r in PullRef(items[i], ns) && q == Mapped(spec, r);
      }
    }
  }

  /** Subjects are the only references with a namespace of their own, and exactly their
      namespaces are rewritten. */
  lemma SubjectsRewritten(spec: Spec, v: Option<Json>)
    requires Namespace(spec, "") == ""
    ensures SubjectRefs(if v.Some? then Some(Rewritten(spec, Subjects, v.value)) else None) == Image(spec, SubjectRefs(v))
  {
    if v.Some? && v.value.Arr? {
      var items := v.value.items;
      var after := Rewritten(spec, Subjects, v.value).items;
      forall i | 0 <= i < |items| ensures after[i] == Rewritten(spec, Subject, items[i]) && SubjectRef(after[i]) == Image(spec, SubjectRef(items[i])) {
        SubjectRewritten(spec, items[i]);
      }
      hide SubjectRef;
      SubjectsList(v.value);
      SubjectsList(Rewritten(spec, Subjects, v.value));
      forall q | q in SubjectRefs(v) ensures Mapped(spec, q) in SubjectRefs(Some(Rewritten(spec, Subjects, v.value))) {
        var i :| 0 <= i < |items| && q in SubjectRef(items[i]);
        assert Mapped(spec, q) in SubjectRef(after[i]);
      }
      forall q | q in SubjectRefs(Some(Rewritten(spec, Subjects, v.value))) ensures q in Image(spec, SubjectRefs(v)) {
        var i :| 0 <= i < |items| && q in SubjectRef(after[i]);
        var r :| r in SubjectRef(items[i]) && q == Mapped(spec, r);
      }
    }
  }

  ghost function SubjectRef(m: Json): set<Ref> {
    if Get(m, "kind") == Some(Str("ServiceAccount")) then One("", "ServiceAccount", TextOf(m, "namespace"), TextOf(m, "name")) else {}
  }

  lemma SubjectsList(v: Json)
    requires v.Arr?
    ensures forall r :: r in SubjectRefs(Some(v)) <==> exists i :: 0 <= i < |v.items| && r in SubjectRef(v.items[i])
  {}

  lemma SubjectRewritten(spec: Spec, m: Json)
    requires Namespace(spec, "") == ""
    ensures SubjectRef(Rewritten(spec, Subject, m)) == Image(spec, SubjectRef(m))
  {
    var t := Rewritten(spec, Subject, m);
    RewrittenGet(spec, Subject, m, "kind");
    RewrittenText(spec, Subject, m, "name");
    if Get(m, "kind").Some? { RewrittenShape(spec, Plain, Get(m, "kind").value); RewrittenPlainStr(spec, Get(m, "kind").value); }
    if Get(m, "kind") == Some(Str("ServiceAccount")) {
      NestedStep(m, ["namespace"], "namespace");
      NestedStep(t, ["namespace"], "namespace");
      if "namespace" in m.fields && !m.fields["namespace"].Str? { RewrittenShape(spec, Plain, m.fields["namespace"]); }
      assert TextOf(t, "namespace") == Namespace(spec, TextOf(m, "namespace"));
    }
  }

  lemma RewrittenPlainStr(spec: Spec, v: Json)
    ensures Rewritten(spec, Plain, v).Str? ==> Rewritten(spec, Plain, v) == v
  {
    RewrittenShape(spec, Plain, v);
  }

  lemma RoleRewritten(spec: Spec, role: Json, ns: string)
    requires Namespace(spec, "") == ""
    ensures RoleRefs(Rewritten(spec, Plain, role), Namespace(spec, ns)) == Image(spec, RoleRefs(role, ns))
  {
    RewrittenText(spec, Plain, role, "kind");
    RewrittenText(spec, Plain, role, "name");
  }

  lemma ScaleRewritten(spec: Spec, target: Json, ns: string)
    ensures ScaleRefs(Rewritten(spec, Plain, target), Namespace(spec, ns)) == Image(spec, ScaleRefs(target, ns))
  {
    RewrittenText(spec, Plain, target, "apiVersion");
    RewrittenText(spec, Plain, target, "kind");
    RewrittenText(spec, Plain, target, "name");
  }

  lemma PodRewritten(spec: Spec, pod: Json, ns: string)
    ensures PodRefs(Rewritten(spec, Plain, pod), Namespace(spec, ns)) == Image(spec, PodRefs(pod, ns))
  {
    hide Pulls, Walked, TextOf, Rewritten, Namespace, Get, Image;
    var to := Namespace(spec, ns);
    RewrittenText(spec, Plain, pod, "serviceAccountName");
    assert AccountRefs(Rewritten(spec, Plain, pod), to) == Image(spec, AccountRefs(pod, ns)) by { AccountMoves(spec, pod, ns); }
    RewrittenGet(spec, Plain, pod, "imagePullSecrets");
    PullsRewritten(spec, Get(pod, "imagePullSecrets"), ns);
    WalkedRewritten(spec, Plain, pod, to);
    WalkedMoves(spec, pod, ns);
    ImageUnion(spec, AccountRefs(pod, ns), Pulls(Get(pod, "imagePullSecrets"), ns));
    ImageUnion(spec, AccountRefs(pod, ns) + Pulls(Get(pod, "imagePullSecrets"), ns), Walked(pod, ns));
  }

  lemma AccountMoves(spec: Spec, pod: Json, ns: string)
    ensures AccountRefs(Rewritten(spec, Plain, pod), Namespace(spec, ns)) == Image(spec, AccountRefs(pod, ns))
  {
    RewrittenText(spec, Plain, pod, "serviceAccountName");
  }

  // ---------------------------------------------------------------- the copy

  datatype Copy = Accepted(copy: Json) | Denied(reason: string)

  const LIFECYCLE := ["uid", "resourceVersion", "generation", "creationTimestamp", "deletionTimestamp", "deletionGracePeriodSeconds",
    "managedFields", "ownerReferences", "finalizers", "generateName", "selfLink"]

  function RemoveEach(v: Json, prefix: seq<string>, keys: seq<string>): Json
    decreases keys
  {
    if keys == [] then v else RemoveEach(Remove(v, prefix + [keys[0]]), prefix, keys[1..])
  }

  /** A map of strings at metadata; one value of another type makes all of it unreadable. */
  function Texts(v: Json, key: string): Option<map<string, Json>> {
    match Nested(v, ["metadata", key])
    case Some(Obj(fields)) => if (forall k :: k in fields ==> fields[k].Str?) then Some(fields) else None
    case _ => None
  }

  function SetTexts(v: Json, key: string, texts: Option<map<string, Json>>): Json {
    if texts.Some? then Set(v, ["metadata", key], Obj(texts.value)) else Remove(v, ["metadata", key])
  }

  predicate OperatorAnnotation(key: string) {
    "meta.helm.sh/" <= key || "replicove.nimeshbuilds.dev/" <= key || "replica.nimeshbuilds.dev/" <= key ||
    key == "kubectl.kubernetes.io/last-applied-configuration" || key == "deployment.kubernetes.io/revision" ||
    "pv.kubernetes.io/" <= key || "volume.kubernetes.io/" <= key
  }

  predicate OperatorLabel(key: string) {
    key == "app.kubernetes.io/managed-by" || key == "pod-template-hash" || key == "controller-revision-hash"
  }

  function Without(texts: Option<map<string, Json>>, drop: string -> bool): Option<map<string, Json>> {
    if texts.Some? then Some(map k | k in texts.value && !drop(k) :: texts.value[k]) else None
  }

  /** Status and lifecycle metadata are not copied. */
  function Cleaned(v: Json): Json {
    var bare := RemoveEach(Remove(v, ["status"]), ["metadata"], LIFECYCLE);
    var annotated := SetTexts(bare, "annotations", Without(Texts(bare, "annotations"), OperatorAnnotation));
    SetTexts(annotated, "labels", Without(Texts(annotated, "labels"), OperatorLabel))
  }

  function Moved(v: Json, spec: Spec): Json {
    if NamespaceOf(v) != "" then Set(v, ["metadata", "namespace"], Str(Namespace(spec, NamespaceOf(v)))) else v
  }

  predicate Contains(s: string, part: string) {
    part <= s || (s != [] && Contains(s[1..], part))
  }

  predicate CloudIdentity(key: string) {
    Contains(key, "eks.amazonaws.com") || Contains(key, "iam.gke.io") || Contains(key, "azure.workload.identity")
  }

  const SERVICE_KEYS := ["clusterIP", "clusterIPs", "ipFamilies", "ipFamilyPolicy", "healthCheckNodePort"]
  const CLAIM_KEYS := ["volumeName", "dataSource", "dataSourceRef", "selector"]
  const JOB_LABELS := ["batch.kubernetes.io/controller-uid", "controller-uid", "batch.kubernetes.io/job-name", "job-name"]

  function WithoutNodePorts(ports: seq<Json>): seq<Json> {
    seq(|ports|, i requires 0 <= i < |ports| => Remove(ports[i], ["nodePort"]))
  }

  function ServiceCopy(v: Json): Copy {
    var headless := NestedStr(v, ["spec", "clusterIP"]) == "None";
    var bare := RemoveEach(v, ["spec"], SERVICE_KEYS);
    var kept := if headless then Set(bare, ["spec", "clusterIP"], Str("None")) else bare;
    var ports := NestedArr(kept, ["spec", "ports"]);
    var done := if ports.Some? then Set(kept, ["spec", "ports"], Arr(WithoutNodePorts(ports.value))) else kept;
    if NestedStr(done, ["spec", "type"]) in {"LoadBalancer", "NodePort"} then Denied("ExternalServiceMappingRequired") else Accepted(done)
  }

  function AccountCopy(v: Json): Copy {
    var bare := Remove(v, ["secrets"]);
    var texts := Texts(bare, "annotations");
    if texts.Some? && exists k :: k in texts.value && CloudIdentity(k) then Denied("IdentityAdapterRequired") else Accepted(bare)
  }

  /** A claim keeps its request but no binding, and takes the mapped storage class. */
  function ClaimCopy(v: Json, spec: Spec): Json {
    var bare := RemoveEach(v, ["spec"], CLAIM_KEYS);
    match Nested(bare, ["spec", "storageClassName"])
    case Some(Str(name)) =>
      if name in spec.storageClasses && spec.storageClasses[name] != "" then
        Set(bare, ["spec", "storageClassName"], Str(spec.storageClasses[name]))
      else bare
    case _ => bare
  }

  function StatefulCopy(v: Json, spec: Spec): Copy {
    var claims := NestedArr(v, ["spec", "volumeClaimTemplates"]);
    if claims.None? || claims.value == [] then Accepted(v)
    else if !spec.emptyVolumes then Denied("DataModeRequired")
    else if exists i :: 0 <= i < |claims.value| && !claims.value[i].Obj? then Denied("InvalidObject")
    else
      Accepted(Set(v, ["spec", "volumeClaimTemplates"],
                   Arr(seq(|claims.value|, i requires 0 <= i < |claims.value| => ClaimCopy(claims.value[i], spec)))))
  }

  function JobCopy(v: Json): Json {
    RemoveEach(Remove(Remove(v, ["spec", "selector"]), ["spec", "manualSelector"]), ["spec", "template", "metadata", "labels"], JOB_LABELS)
  }

  function PerKind(v: Json, spec: Spec): Copy {
    var kind := KindOf(v);
    if kind == "Service" then ServiceCopy(v)
    else if kind == "ServiceAccount" then AccountCopy(v)
    else if kind == "PersistentVolumeClaim" then (if spec.emptyVolumes then Accepted(ClaimCopy(v, spec)) else Denied("DataModeRequired"))
    else if kind == "StatefulSet" then StatefulCopy(v, spec)
    else if kind == "Job" then Accepted(JobCopy(v))
    else Accepted(v)
  }

  predicate True(v: Json, key: string) { Get(v, key) == Some(Bool(true)) }

  predicate HostPath(v: Json) { Get(v, "hostPath").Some? && Get(v, "hostPath").value != Null }

  predicate Privileged(v: Json) {
    Get(v, "securityContext").Some? && True(Get(v, "securityContext").value, "privileged")
  }

  predicate AnyItem(v: Option<Json>, p: Json -> bool) {
    v.Some? && v.value.Arr? && exists i :: 0 <= i < |v.value.items| && p(v.value.items[i])
  }

  /** Host access is denied and the node of the source is dropped. */
  function PodCopy(pod: Json): Copy {
    var moved := Remove(pod, ["nodeName"]);
    if True(moved, "hostNetwork") || True(moved, "hostPID") || True(moved, "hostIPC") || AnyItem(Get(moved, "volumes"), HostPath) ||
       AnyItem(Get(moved, "containers"), Privileged) || AnyItem(Get(moved, "initContainers"), Privileged)
    then Denied("HostCapabilityRequired") else Accepted(moved)
  }

  function PodsCopied(v: Json): Copy {
    var path := PodPath(KindOf(v));
    if path.None? || NestedObj(v, path.value).None? then Accepted(v)
    else
      match PodCopy(NestedObj(v, path.value).value)
      case Accepted(pod) => Accepted(Set(v, path.value, pod))
      case denied => denied
  }

  /** The desired copy of an object in the guest, or why it cannot be copied. */
  function Transform(v: Json, spec: Spec): Copy {
    if NestedObj(v, ["metadata"]).None? then Denied("InvalidObject")
    else
      var moved := Moved(Cleaned(v), spec);
      if "kube-" <= NamespaceOf(moved) then Denied("SystemNamespaceMappingRequired")
      else
        match PerKind(moved, spec)
        case Accepted(kept) => PodsCopied(Rewritten(spec, Plain, kept))
        case denied => denied
  }

  // ---------------------------------------------------------------- what the copy leaves alone

  const VIEWED: seq<seq<string>> := [["metadata", "namespace"], ["kind"], ["spec", "template", "spec"], ["spec", "jobTemplate", "spec", "template", "spec"],
    ["imagePullSecrets"], ["roleRef"], ["subjects"], ["spec", "policyName"], ["spec", "scaleTargetRef"], ["data"], ["stringData"]]

  /** The parts that can refer to others, and the data, read alike in both objects. */
  predicate Alike(v: Json, t: Json) {
    AlikeFrom(v, t, 0)
  }

  predicate AlikeFrom(v: Json, t: Json, n: nat) {
    forall i :: n <= i < |VIEWED| ==> Nested(t, VIEWED[i]) == Nested(v, VIEWED[i])
  }

  predicate ApartFromView(path: seq<string>) {
    forall i :: 0 <= i < |VIEWED| ==> Apart(path, VIEWED[i])
  }

  lemma RemoveAlike(v: Json, path: seq<string>)
    requires path != [] && ApartFromView(path)
    ensures Alike(v, Remove(v, path))
  {
    forall i | 0 <= i < |VIEWED| ensures Nested(Remove(v, path), VIEWED[i]) == Nested(v, VIEWED[i]) { RemoveApart(v, path, VIEWED[i]); }
  }

  lemma SetAlike(v: Json, path: seq<string>, value: Json)
    requires path != [] && ApartFromView(path)
    ensures Alike(v, Set(v, path, value))
  {
    forall i | 0 <= i < |VIEWED| ensures Nested(Set(v, path, value), VIEWED[i]) == Nested(v, VIEWED[i]) { SetApart(v, path, VIEWED[i], value); }
  }

  lemma AlikeTransitive(v: Json, t: Json, u: Json)
    requires Alike(v, t) && Alike(t, u)
    ensures Alike(v, u)
  {
    forall i | 0 <= i < |VIEWED| ensures Nested(u, VIEWED[i]) == Nested(v, VIEWED[i]) {}
  }

  lemma {:induction false} RemoveEachAlike(v: Json, prefix: seq<string>, keys: seq<string>)
    requires forall k :: k in keys ==> ApartFromView(prefix + [k])
    ensures Alike(v, RemoveEach(v, prefix, keys))
    decreases keys
  {
    hide ApartFromView;
    if keys != [] {
      RemoveAlike(v, prefix + [keys[0]]);
      RemoveEachAlike(Remove(v, prefix + [keys[0]]), prefix, keys[1..]);
      AlikeTransitive(v, Remove(v, prefix + [keys[0]]), RemoveEach(v, prefix, keys));
    }
  }

  lemma Parts(p: seq<string>)
    requires |p| == 2 && p[0] == "metadata" && p[1] != "namespace"
    ensures ApartFromView(p)
  {
    forall i | 0 <= i < |VIEWED| ensures Apart(p, VIEWED[i]) {
      if i == 0 { assert Apart(p[1..], VIEWED[0][1..]); } else { assert VIEWED[i][0] != "metadata"; }
    }
  }

  lemma SpecParts(p: seq<string>)
    requires |p| >= 2 && p[0] == "spec" && p[1] !in {"template", "jobTemplate", "policyName", "scaleTargetRef"}
    ensures ApartFromView(p)
  {
    forall i | 0 <= i < |VIEWED| ensures Apart(p, VIEWED[i]) {
      if VIEWED[i][0] == "spec" { assert VIEWED[i][1] in {"template", "jobTemplate", "policyName", "scaleTargetRef"}; assert Apart(p[1..], VIEWED[i][1..]); }
    }
  }

  lemma LabelParts(key: string)
    ensures ApartFromView(["spec", "template", "metadata", "labels"] + [key])
  {
    var p := ["spec", "template", "metadata", "labels"] + [key];
    forall i | 0 <= i < |VIEWED| ensures Apart(p, VIEWED[i]) {
      if VIEWED[i][0] == "spec" {
        if VIEWED[i][1] == "template" {
          assert VIEWED[i][2] == "spec";
          assert Apart(p[1..][1..], VIEWED[i][1..][1..]);
        }
        assert Apart(p[1..], VIEWED[i][1..]);
      }
    }
  }

  lemma RootParts(key: string)
    requires key !in {"metadata", "kind", "spec", "imagePullSecrets", "roleRef", "subjects", "data", "stringData"}
    ensures ApartFromView([key])
  {
    forall i | 0 <= i < |VIEWED| ensures Apart([key], VIEWED[i]) {
      assert VIEWED[i][0] in {"metadata", "kind", "spec", "imagePullSecrets", "roleRef", "subjects", "data", "stringData"};
    }
  }

  lemma LifecycleParts()
    ensures forall k :: k in LIFECYCLE ==> ApartFromView(["metadata"] + [k])
  {
    forall k | k in LIFECYCLE ensures ApartFromView(["metadata"] + [k]) { Parts(["metadata"] + [k]); }
  }

  lemma TextsAlike(v: Json, key: string, texts: Option<map<string, Json>>)
    requires key != "namespace"
    ensures Alike(v, SetTexts(v, key, texts))
  {
    hide ApartFromView, Alike, AlikeFrom;
    Parts(["metadata", key]);
    if texts.Some? { SetAlike(v, ["metadata", key], Obj(texts.value)); } else { RemoveAlike(v, ["metadata", key]); }
  }

  lemma CleanedAlike(v: Json)
    ensures Alike(v, Cleaned(v))
  {
    hide ApartFromView, Alike, AlikeFrom, SetTexts, RemoveEach, Remove, Without, Texts;
    RootParts("status");
    var a := Remove(v, ["status"]);
    RemoveAlike(v, ["status"]);
    LifecycleParts();
    var b := RemoveEach(a, ["metadata"], LIFECYCLE);
    RemoveEachAlike(a, ["metadata"], LIFECYCLE);
    AlikeTransitive(v, a, b);
    var c := SetTexts(b, "annotations", Without(Texts(b, "annotations"), OperatorAnnotation));
    TextsAlike(b, "annotations", Without(Texts(b, "annotations"), OperatorAnnotation));
    AlikeTransitive(v, b, c);
    TextsAlike(c, "labels", Without(Texts(c, "labels"), OperatorLabel));
    AlikeTransitive(v, c, Cleaned(v));
  }

  lemma SpecKeysAlike(v: Json, keys: seq<string>)
    requires forall k :: k in keys ==> k !in {"template", "jobTemplate", "policyName", "scaleTargetRef"}
    ensures Alike(v, RemoveEach(v, ["spec"], keys))
  {
    hide ApartFromView, Alike, AlikeFrom;
    forall k | k in keys ensures ApartFromView(["spec"] + [k]) { SpecParts(["spec"] + [k]); }
    RemoveEachAlike(v, ["spec"], keys);
  }

  lemma SpecSetAlike(v: Json, key: string, value: Json)
    requires key !in {"template", "jobTemplate", "policyName", "scaleTargetRef"}
    ensures Alike(v, Set(v, ["spec", key], value))
  {
    hide ApartFromView, Alike, AlikeFrom;
    SpecParts(["spec", key]);
    SetAlike(v, ["spec", key], value);
  }

  lemma AlikeSelf(v: Json)
    ensures Alike(v, v)
  {}

  lemma ServiceAlike(v: Json)
    ensures ServiceCopy(v).Accepted? ==> Alike(v, ServiceCopy(v).copy)
  {
    hide ApartFromView, Alike, AlikeFrom, RemoveEach, Set, Remove;
    var headless := NestedStr(v, ["spec", "clusterIP"]) == "None";
    var bare := RemoveEach(v, ["spec"], SERVICE_KEYS);
    SpecKeysAlike(v, SERVICE_KEYS);
    var kept := if headless then Set(bare, ["spec", "clusterIP"], Str("None")) else bare;
    SpecSetAlike(bare, "clusterIP", Str("None"));
    AlikeSelf(bare);
    AlikeTransitive(v, bare, kept);
    var ports := NestedArr(kept, ["spec", "ports"]);
    AlikeSelf(kept);
    if ports.Some? { SpecSetAlike(kept, "ports", Arr(WithoutNodePorts(ports.value))); AlikeTransitive(v, kept, Set(kept, ["spec", "ports"], Arr(WithoutNodePorts(ports.value)))); }
  }

  lemma ClaimAlike(v: Json, spec: Spec)
    ensures Alike(v, ClaimCopy(v, spec))
  {
    hide ApartFromView, Alike, AlikeFrom, RemoveEach, Set, Remove;
    var bare := RemoveEach(v, ["spec"], CLAIM_KEYS);
    SpecKeysAlike(v, CLAIM_KEYS);
    AlikeSelf(bare);
    match Nested(bare, ["spec", "storageClassName"])
    case Some(Str(name)) =>
      if name in spec.storageClasses {
        SpecSetAlike(bare, "storageClassName", Str(spec.storageClasses[name]));
        AlikeTransitive(v, bare, Set(bare, ["spec", "storageClassName"], Str(spec.storageClasses[name])));
      }
    case _ =>
  }

  lemma JobAlike(v: Json)
    ensures Alike(v, JobCopy(v))
  {
    hide ApartFromView, Alike, AlikeFrom, RemoveEach, Remove;
    SpecParts(["spec", "selector"]);
    SpecParts(["spec", "manualSelector"]);
    var a := Remove(v, ["spec", "selector"]);
    RemoveAlike(v, ["spec", "selector"]);
    var b := Remove(a, ["spec", "manualSelector"]);
    RemoveAlike(a, ["spec", "manualSelector"]);
    AlikeTransitive(v, a, b);
    forall k | k in JOB_LABELS ensures ApartFromView(["spec", "template", "metadata", "labels"] + [k]) { LabelParts(k); }
    RemoveEachAlike(b, ["spec", "template", "metadata", "labels"], JOB_LABELS);
    AlikeTransitive(v, b, JobCopy(v));
  }

  lemma PerKindAlike(v: Json, spec: Spec)
    ensures PerKind(v, spec).Accepted? ==> Alike(v, PerKind(v, spec).copy)
  {
    hide Alike, AlikeFrom, ApartFromView, ClaimCopy, JobCopy, ServiceCopy, Remove, Set;
    ServiceAlike(v);
    ClaimAlike(v, spec);
    JobAlike(v);
    AlikeSelf(v);
    RootParts("secrets");
    RemoveAlike(v, ["secrets"]);
    var claims := NestedArr(v, ["spec", "volumeClaimTemplates"]);
    if claims.Some? {
      SpecSetAlike(v, "volumeClaimTemplates", Arr(seq(|claims.value|, i requires 0 <= i < |claims.value| => ClaimCopy(claims.value[i], spec))));
    }
  }

  // ---------------------------------------------------------------- the reference graph is kept

  predicate OrdinaryKey(key: string) {
    key !in {"namespace", "data", "stringData", "subjects", "clientConfig", "webhook", "service"}
  }

  lemma {:induction false} RewrittenNested(spec: Spec, v: Json, path: seq<string>)
    requires forall i :: 0 <= i < |path| ==> OrdinaryKey(path[i])
    ensures Nested(Rewritten(spec, Plain, v), path) ==
      match Nested(v, path) case Some(x) => Some(Rewritten(spec, Plain, x)) case None => None
    decreases path
  {
    if path != [] {
      assert OrdinaryKey(path[0]);
      RewrittenGet(spec, Plain, v, path[0]);
      if Get(v, path[0]).Some? { RewrittenNested(spec, Get(v, path[0]).value, path[1..]); }
    }
  }

  /** What a view becomes when its object is rewritten. */
  function Seen(spec: Spec, w: View): View {
    View(w.kind, w.ns, if w.pod.Some? then Some(Rewritten(spec, Plain, w.pod.value)) else None,
         if w.pulls.Some? then Some(Rewritten(spec, Plain, w.pulls.value)) else None, Rewritten(spec, Plain, w.role),
         if w.subjects.Some? then Some(Rewritten(spec, Subjects, w.subjects.value)) else None,
         w.policy, Rewritten(spec, Plain, w.target))
  }

  lemma PodPathOrdinary(kind: string)
    requires PodPath(kind).Some?
    ensures forall i :: 0 <= i < |PodPath(kind).value| ==> OrdinaryKey(PodPath(kind).value[i])
  {}

  lemma StrRewritten(spec: Spec, v: Json, path: seq<string>)
    requires forall i :: 0 <= i < |path| ==> OrdinaryKey(path[i])
    ensures NestedStr(Rewritten(spec, Plain, v), path) == NestedStr(v, path)
  {
    RewrittenNested(spec, v, path);
    if Nested(v, path).Some? { RewrittenShape(spec, Plain, Nested(v, path).value); }
  }

  lemma ObjRewritten(spec: Spec, v: Json, path: seq<string>)
    requires forall i :: 0 <= i < |path| ==> OrdinaryKey(path[i])
    ensures ObjOr(Nested(Rewritten(spec, Plain, v), path)) == Rewritten(spec, Plain, ObjOr(Nested(v, path)))
    ensures NestedObj(Rewritten(spec, Plain, v), path) ==
      match NestedObj(v, path) case Some(x) => Some(Rewritten(spec, Plain, x)) case None => None
  {
    RewrittenNested(spec, v, path);
    if Nested(v, path).Some? { RewrittenShape(spec, Plain, Nested(v, path).value); }
  }

  lemma SubjectsNested(spec: Spec, v: Json)
    ensures Nested(Rewritten(spec, Plain, v), ["subjects"]) ==
      match Nested(v, ["subjects"]) case Some(x) => Some(Rewritten(spec, Subjects, x)) case None => None
  {
    RewrittenGet(spec, Plain, v, "subjects");
    NestedStep(v, ["subjects"], "subjects");
    NestedStep(Rewritten(spec, Plain, v), ["subjects"], "subjects");
  }

  lemma NamespaceRewritten(spec: Spec, v: Json)
    ensures NamespaceOf(Rewritten(spec, Plain, v)) == NamespaceOf(v)
  {
    var path := ["metadata", "namespace"];
    RewrittenGet(spec, Plain, v, "metadata");
    NestedStep(v, path, "metadata");
    NestedStep(Rewritten(spec, Plain, v), path, "metadata");
    if Get(v, "metadata").Some? {
      var m := Get(v, "metadata").value;
      assert path[1..] == ["namespace"];
      NestedStep(m, ["namespace"], "namespace");
      NestedStep(Rewritten(spec, Plain, m), ["namespace"], "namespace");
      if m.Obj? && "namespace" in m.fields { RewrittenShape(spec, Plain, m.fields["namespace"]); }
    }
  }

  lemma ViewRewritten(spec: Spec, v: Json)
    ensures ViewOf(Rewritten(spec, Plain, v)) == Seen(spec, ViewOf(v))
  {
    hide Rewritten, Nested, PodPath, OrdinaryKey;
    RewrittenText(spec, Plain, v, "kind");
    NamespaceRewritten(spec, v);
    SubjectsNested(spec, v);
    Ordinary();
    RewrittenNested(spec, v, ["imagePullSecrets"]);
    ObjRewritten(spec, v, ["roleRef"]);
    StrRewritten(spec, v, ["spec", "policyName"]);
    ObjRewritten(spec, v, ["spec", "scaleTargetRef"]);
    if PodPath(KindOf(v)).Some? {
      PodPathOrdinary(KindOf(v));
      ObjRewritten(spec, v, PodPath(KindOf(v)).value);
    }
  }

  lemma Ordinary()
    ensures OrdinaryKey("imagePullSecrets") && OrdinaryKey("roleRef") && OrdinaryKey("spec") && OrdinaryKey("policyName") && OrdinaryKey("scaleTargetRef")
  {}

  lemma SeenParts(spec: Spec, w: View)
    requires Namespace(spec, "") == ""
    ensures var t := Seen(spec, w).(ns := Namespace(spec, w.ns));
      && PodPart(t) == Image(spec, PodPart(w)) && PullPart(t) == Image(spec, PullPart(w)) && ScalePart(t) == Image(spec, ScalePart(w))
  {
    hide PodRefs, Pulls, ScaleRefs, Rewritten, Namespace, Mapped;
    if w.pod.Some? { PodRewritten(spec, w.pod.value, w.ns); }
    PullsRewritten(spec, w.pulls, w.ns);
    ScaleRewritten(spec, w.target, w.ns);
  }

  lemma SeenBinding(spec: Spec, w: View)
    requires Namespace(spec, "") == ""
    ensures var t := Seen(spec, w).(ns := Namespace(spec, w.ns)); BindingPart(t) == Image(spec, BindingPart(w))
  {
    hide SubjectRefs, RoleRefs, Rewritten, Namespace, Mapped;
    SubjectsRewritten(spec, w.subjects);
    RoleRewritten(spec, w.role, w.ns);
    ImageUnion(spec, RoleRefs(w.role, w.ns), SubjectRefs(w.subjects));
  }

  lemma SeenPolicy(spec: Spec, w: View)
    requires Namespace(spec, "") == ""
    ensures var t := Seen(spec, w).(ns := Namespace(spec, w.ns)); PolicyPart(t) == Image(spec, PolicyPart(w))
  {}

  lemma SeenRefers(spec: Spec, w: View)
    requires Namespace(spec, "") == ""
    ensures Refers(Seen(spec, w).(ns := Namespace(spec, w.ns))) == Image(spec, Refers(w))
  {
    hide PodPart, PullPart, BindingPart, PolicyPart, ScalePart, Seen, Image, Namespace;
    SeenParts(spec, w);
    SeenBinding(spec, w);
    SeenPolicy(spec, w);
    ImageUnion(spec, PodPart(w), PullPart(w));
    ImageUnion(spec, PodPart(w) + PullPart(w), BindingPart(w));
    ImageUnion(spec, PodPart(w) + PullPart(w) + BindingPart(w), PolicyPart(w));
    ImageUnion(spec, PodPart(w) + PullPart(w) + BindingPart(w) + PolicyPart(w), ScalePart(w));
  }

  /** References inside the node name of a Pod, which the copy drops. */
  ghost function NodeRefs(pod: Json, ns: string): set<Ref> {
    if Get(pod, "nodeName").Some? then Walked(Get(pod, "nodeName").value, ns) else {}
  }

  lemma NodeDropped(pod: Json, ns: string)
    ensures PodRefs(pod, ns) == PodRefs(Remove(pod, ["nodeName"]), ns) + NodeRefs(pod, ns)
    ensures forall r :: r in PodRefs(pod, ns) ==> r.ns == ns
  {
    var bare := Remove(pod, ["nodeName"]);
    PodNamespaces(pod, ns);
    if pod.Obj? {
      assert TextOf(bare, "serviceAccountName") == TextOf(pod, "serviceAccountName");
      assert Get(bare, "imagePullSecrets") == Get(pod, "imagePullSecrets");
      WalkedWithout(pod, ns);
      hide Walked, Pulls, AccountRefs;
      assert AccountRefs(bare, ns) == AccountRefs(pod, ns) by { SameAccount(pod, bare, ns); }
    }
  }

  lemma SameAccount(pod: Json, bare: Json, ns: string)
    requires TextOf(bare, "serviceAccountName") == TextOf(pod, "serviceAccountName")
    ensures AccountRefs(bare, ns) == AccountRefs(pod, ns)
  {}

  lemma WalkedWithout(pod: Json, ns: string)
    requires pod.Obj?
    ensures Walked(pod, ns) == Walked(Remove(pod, ["nodeName"]), ns) + NodeRefs(pod, ns)
  {
    var bare := Remove(pod, ["nodeName"]);
    assert bare.fields == pod.fields - {"nodeName"};
    forall r | r in Walked(pod, ns) ensures r in Walked(bare, ns) + NodeRefs(pod, ns) {
      if key :| key in pod.fields && pod.fields[key].Obj? && r in Under(key, pod.fields[key], ns) {
        if key != "nodeName" { assert key in bare.fields; }
      } else {
        var key :| key in pod.fields && r in Walked(pod.fields[key], ns);
        if key != "nodeName" { assert key in bare.fields; }
      }
    }
    forall r | r in Walked(bare, ns) ensures r in Walked(pod, ns) {
      if key :| key in bare.fields && bare.fields[key].Obj? && r in Under(key, bare.fields[key], ns) {
        assert key in pod.fields && pod.fields[key] == bare.fields[key];
      } else {
        var key :| key in bare.fields && r in Walked(bare.fields[key], ns);
        assert key in pod.fields && pod.fields[key] == bare.fields[key];
      }
    }
  }

  lemma {:induction false} WalkedNamespaces(v: Json, ns: string)
    ensures forall r :: r in Walked(v, ns) ==> r.ns == ns
    decreases v
  {
    match v
    case Obj(fields) => forall key | key in fields ensures forall r :: r in Walked(fields[key], ns) ==> r.ns == ns { WalkedNamespaces(fields[key], ns); }
    case Arr(items) => forall i | 0 <= i < |items| ensures forall r :: r in Walked(items[i], ns) ==> r.ns == ns { WalkedNamespaces(items[i], ns); }
    case _ =>
  }

  lemma PodNamespaces(pod: Json, ns: string)
    ensures forall r :: r in PodRefs(pod, ns) ==> r.ns == ns
  {
    WalkedNamespaces(pod, ns);
  }

  lemma RemoveRewritten(spec: Spec, pod: Json)
    ensures Remove(Rewritten(spec, Plain, pod), ["nodeName"]) == Rewritten(spec, Plain, Remove(pod, ["nodeName"]))
  {
    if pod.Obj? {
      assert Remove(Rewritten(spec, Plain, pod), ["nodeName"]).fields == Rewritten(spec, Plain, Remove(pod, ["nodeName"])).fields;
    }
  }

  lemma ImageOneNamespace(spec: Spec, a: set<Ref>, b: set<Ref>, ns: string)
    requires a <= b && forall r :: r in b ==> r.ns == ns
    ensures Image(spec, a) <= Image(spec, b) && (Image(spec, a) == Image(spec, b) <==> a == b)
  {
    if Image(spec, a) == Image(spec, b) {
      forall r | r in b ensures r in a {
        assert Mapped(spec, r) in Image(spec, b);
        var q :| q in a && Mapped(spec, q) == Mapped(spec, r);
        assert q in b && q == r;
      }
    }
  }

  // ---------------------------------------------------------------- the whole copy

  lemma MovedAlike(v: Json, spec: Spec)
    requires Namespace(spec, "") == "" && NestedObj(v, ["metadata"]).Some?
    ensures AlikeFrom(v, Moved(v, spec), 1) && NamespaceOf(Moved(v, spec)) == Namespace(spec, NamespaceOf(v))
  {
    var path := ["metadata", "namespace"];
    var to := Str(Namespace(spec, NamespaceOf(v)));
    if NamespaceOf(v) != "" {
      forall i | 1 <= i < |VIEWED| ensures Nested(Set(v, path, to), VIEWED[i]) == Nested(v, VIEWED[i]) {
        assert VIEWED[i][0] != "metadata";
        SetApart(v, path, VIEWED[i], to);
      }
      SetThere(v, path, to);
    }
  }

  /** Objects that read alike but for their namespace have the same view but for it. */
  lemma AlikeView(v: Json, t: Json)
    requires AlikeFrom(v, t, 1)
    ensures ViewOf(t) == ViewOf(v).(ns := NamespaceOf(t))
  {
    hide Nested;
    assert VIEWED[1] == ["kind"] && VIEWED[2] == ["spec", "template", "spec"] && VIEWED[3] == ["spec", "jobTemplate", "spec", "template", "spec"];
    assert VIEWED[4] == ["imagePullSecrets"] && VIEWED[5] == ["roleRef"] && VIEWED[6] == ["subjects"];
    assert VIEWED[7] == ["spec", "policyName"] && VIEWED[8] == ["spec", "scaleTargetRef"];
  }

  lemma MetadataKept(v: Json)
    requires NestedObj(v, ["metadata"]).Some?
    ensures NestedObj(Cleaned(v), ["metadata"]).Some?
  {
    hide Without, Texts;
    MetaRemove(v, ["status"]);
    var a := Remove(v, ["status"]);
    MetaRemoveEach(a, LIFECYCLE);
    var b := RemoveEach(a, ["metadata"], LIFECYCLE);
    MetaTexts(b, "annotations", Without(Texts(b, "annotations"), OperatorAnnotation));
    var c := SetTexts(b, "annotations", Without(Texts(b, "annotations"), OperatorAnnotation));
    MetaTexts(c, "labels", Without(Texts(c, "labels"), OperatorLabel));
  }

  lemma MetaRemove(v: Json, path: seq<string>)
    requires NestedObj(v, ["metadata"]).Some? && path != [] && (path[0] != "metadata" || |path| > 1)
    ensures NestedObj(Remove(v, path), ["metadata"]).Some?
  {
    NestedStep(v, ["metadata"], "metadata");
    NestedStep(Remove(v, path), ["metadata"], "metadata");
  }

  lemma {:induction false} MetaRemoveEach(v: Json, keys: seq<string>)
    requires NestedObj(v, ["metadata"]).Some?
    ensures NestedObj(RemoveEach(v, ["metadata"], keys), ["metadata"]).Some?
    decreases keys
  {
    if keys != [] {
      MetaRemove(v, ["metadata"] + [keys[0]]);
      MetaRemoveEach(Remove(v, ["metadata"] + [keys[0]]), keys[1..]);
    }
  }

  lemma MetaTexts(v: Json, key: string, texts: Option<map<string, Json>>)
    requires NestedObj(v, ["metadata"]).Some?
    ensures NestedObj(SetTexts(v, key, texts), ["metadata"]).Some?
  {
    if texts.None? { MetaRemove(v, ["metadata", key]); }
    else {
      var t := Set(v, ["metadata", key], Obj(texts.value));
      NestedStep(v, ["metadata"], "metadata");
      NestedStep(t, ["metadata"], "metadata");
      assert ["metadata", key][1..] == [key];
      assert t.fields["metadata"] == Set(v.fields["metadata"], [key], Obj(texts.value));
    }
  }

  /** The object before its Pod template is looked at. */
  lemma KeptView(v: Json, spec: Spec)
    requires Namespace(spec, "") == "" && NestedObj(v, ["metadata"]).Some?
    ensures var moved := Moved(Cleaned(v), spec); PerKind(moved, spec).Accepted? ==>
      AlikeFrom(v, PerKind(moved, spec).copy, 1) &&
      ViewOf(PerKind(moved, spec).copy) == ViewOf(v).(ns := Namespace(spec, NamespaceOf(v)))
  {
    hide Cleaned, Moved, PerKind, ViewOf, Nested;
    CleanedAlike(v);
    MetadataKept(v);
    var cleaned := Cleaned(v);
    MovedAlike(cleaned, spec);
    var moved := Moved(cleaned, spec);
    PerKindAlike(moved, spec);
    assert VIEWED[0] == ["metadata", "namespace"];
    if PerKind(moved, spec).Accepted? { AlikeView(v, PerKind(moved, spec).copy); }
  }

  lemma PodPathApart(kind: string)
    requires PodPath(kind).Some?
    ensures var path := PodPath(kind).value; Apart(path, ["kind"]) && Apart(path, ["metadata", "namespace"]) && Apart(path, ["data"]) && Apart(path, ["stringData"])
    ensures kind !in {"ServiceAccount", "RoleBinding", "ClusterRoleBinding", "ValidatingAdmissionPolicyBinding", "HorizontalPodAutoscaler"}
  {}

  lemma PodsView(v: Json)
    requires PodsCopied(v).Accepted?
    ensures var t := PodsCopied(v).copy; var w := ViewOf(v);
      Refers(ViewOf(t)) == Refers(w.(pod := if w.pod.Some? then Some(Remove(w.pod.value, ["nodeName"])) else None))
    ensures var t := PodsCopied(v).copy; Nested(t, ["data"]) == Nested(v, ["data"]) && Nested(t, ["stringData"]) == Nested(v, ["stringData"])
  {
    hide Remove, Refers, Nested, PodRefs;
    var kind := KindOf(v);
    if PodPath(kind).Some? && NestedObj(v, PodPath(kind).value).Some? {
      var path := PodPath(kind).value;
      var pod := Remove(NestedObj(v, path).value, ["nodeName"]);
      var t := Set(v, path, pod);
      assert PodsCopied(v).copy == t;
      PodPathApart(kind);
      SetApart(v, path, ["kind"], pod);
      SetApart(v, path, ["metadata", "namespace"], pod);
      SetApart(v, path, ["data"], pod);
      SetApart(v, path, ["stringData"], pod);
      SetThere(v, path, pod);
      RemoveObj(NestedObj(v, path).value);
      PodOnly(ViewOf(t), ViewOf(v).(pod := Some(pod)));
    }
  }

  lemma RemoveObj(pod: Json)
    requires pod.Obj?
    ensures Remove(pod, ["nodeName"]).Obj?
  {}

  lemma PodOnly(a: View, b: View)
    requires a.kind == b.kind && a.ns == b.ns && a.pod == b.pod
    requires a.kind !in {"ServiceAccount", "RoleBinding", "ClusterRoleBinding", "ValidatingAdmissionPolicyBinding", "HorizontalPodAutoscaler"}
    ensures Refers(a) == Refers(b)
  {}

  /** The references of an object other than those inside the node name of its Pods. */
  ghost function LastingRefs(w: View): set<Ref> {
    Refers(w.(pod := if w.pod.Some? then Some(Remove(w.pod.value, ["nodeName"])) else None))
  }

  ghost function DroppedRefs(w: View): set<Ref> {
    if w.pod.Some? then NodeRefs(w.pod.value, w.ns) else {}
  }

  lemma TransformLasting(v: Json, spec: Spec)
    requires Namespace(spec, "") == "" && Transform(v, spec).Accepted?
    ensures Dependencies(Transform(v, spec).copy) == Image(spec, LastingRefs(ViewOf(v)))
    ensures forall path :: path == ["data"] || path == ["stringData"] ==> Nested(Transform(v, spec).copy, path) == Nested(v, path)
  {
    hide Cleaned, Moved, PerKind, Rewritten, PodsCopied, ViewOf, Refers, Image, Remove, Namespace, Nested;
    var kept := PerKind(Moved(Cleaned(v), spec), spec).copy;
    KeptView(v, spec);
    var rewritten := Rewritten(spec, Plain, kept);
    ViewRewritten(spec, kept);
    PodsView(rewritten);
    DataKept(v, kept, spec);
    var w := ViewOf(v);
    var bare := w.(pod := if w.pod.Some? then Some(Remove(w.pod.value, ["nodeName"])) else None);
    SeenRefers(spec, bare);
    if w.pod.Some? { RemoveRewritten(spec, w.pod.value); }
    NamespaceView(v);
  }

  lemma NamespaceView(v: Json)
    ensures ViewOf(v).ns == NamespaceOf(v)
  {}

  lemma DataKept(v: Json, kept: Json, spec: Spec)
    requires AlikeFrom(v, kept, 1)
    ensures forall path :: path == ["data"] || path == ["stringData"] ==> Nested(Rewritten(spec, Plain, kept), path) == Nested(v, path)
  {
    hide Nested, Rewritten;
    assert VIEWED[9] == ["data"] && VIEWED[10] == ["stringData"];
    assert Through(["data"]) by { assert ["data"][0] == "data"; }
    assert Through(["stringData"]) by { assert ["stringData"][0] == "stringData"; }
    DataUntouched(spec, Plain, kept, ["data"]);
    DataUntouched(spec, Plain, kept, ["stringData"]);
  }

  /** Copying never invents a reference, and keeps the reference graph, with every
      namespace mapped, exactly when each reference inside the dropped node name is also
      made elsewhere in the object. */
  lemma TransformRenames(v: Json, spec: Spec)
    requires Namespace(spec, "") == "" && Transform(v, spec).Accepted?
    ensures Dependencies(Transform(v, spec).copy) <= Image(spec, Dependencies(v))
    ensures Dependencies(Transform(v, spec).copy) == Image(spec, Dependencies(v)) <==> DroppedRefs(ViewOf(v)) <= LastingRefs(ViewOf(v))
  {
    hide Transform, ViewOf, Refers, Image, Namespace, PodRefs, NodeRefs, Remove;
    TransformLasting(v, spec);
    LastingSplit(ViewOf(v));
    var w := ViewOf(v);
    PodKinds(v);
    if w.pod.Some? { ImageOneNamespace(spec, LastingRefs(w), Refers(w), w.ns); }
  }

  lemma PodKinds(v: Json)
    ensures ViewOf(v).pod.Some? ==> forall r :: r in Refers(ViewOf(v)) ==> r.ns == ViewOf(v).ns
  {
    hide PodRefs, Nested;
    var w := ViewOf(v);
    if w.pod.Some? {
      PodPathApart(w.kind);
      PodNamespaces(w.pod.value, w.ns);
    }
  }

  lemma LastingSplit(w: View)
    ensures Refers(w) == LastingRefs(w) + DroppedRefs(w)
  {
    hide PodRefs, NodeRefs, Remove;
    if w.pod.Some? { NodeDropped(w.pod.value, w.ns); }
  }

  /** A node name that is a string, as the API demands, holds no reference. */
  lemma StringNodeName(v: Json, spec: Spec)
    requires Namespace(spec, "") == "" && Transform(v, spec).Accepted?
    requires ViewOf(v).pod.Some? && Get(ViewOf(v).pod.value, "nodeName").Some? ==> Get(ViewOf(v).pod.value, "nodeName").value.Str?
    ensures Dependencies(Transform(v, spec).copy) == Image(spec, Dependencies(v))
  {
    hide Transform, ViewOf, Refers, Image, Namespace;
    TransformRenames(v, spec);
  }

  /** A Deployment whose node name is not a string but an object naming a secret. */
  const ODD_NODE := Obj(map["secretRef" := Obj(map["name" := Str("s")])])
  const ODD_POD := Obj(map["nodeName" := ODD_NODE])
  const ODD_SPEC := Obj(map["template" := Obj(map["spec" := ODD_POD])])
  const ODD := Obj(map["kind" := Str("Deployment"), "metadata" := Obj(map["namespace" := Str("a")]), "spec" := ODD_SPEC])

  lemma OddNested()
    ensures KindOf(ODD) == "Deployment" && NamespaceOf(ODD) == "a" && NestedObj(ODD, ["metadata"]).Some?
    ensures Nested(ODD, ["spec", "template", "spec"]) == Some(ODD_POD)
    ensures Nested(ODD, ["imagePullSecrets"]).None? && Nested(ODD, ["roleRef"]).None? && Nested(ODD, ["subjects"]).None?
  {
    NestedStep(ODD, ["kind"], "kind");
    NestedStep(ODD, ["metadata"], "metadata");
    NestedStep(ODD, ["metadata", "namespace"], "metadata");
    assert ["metadata", "namespace"][1..] == ["namespace"];
    NestedStep(ODD, ["spec", "template", "spec"], "spec");
    assert ["spec", "template", "spec"][1..] == ["template", "spec"];
    NestedStep(ODD_SPEC, ["template", "spec"], "template");
    assert ["template", "spec"][1..] == ["spec"];
  }

  lemma OddView()
    ensures ViewOf(ODD).kind == "Deployment" && ViewOf(ODD).ns == "a" && ViewOf(ODD).pod == Some(ODD_POD)
  {
    OddNested();
    hide Nested;
  }

  lemma OddRefs()
    ensures LastingRefs(ViewOf(ODD)) == {} && Ref("", "Secret", "a", "s") in DroppedRefs(ViewOf(ODD))
  {
    hide ViewOf, PodRefs, NodeRefs;
    OddView();
    OddNodeRefs();
    assert Remove(ODD_POD, ["nodeName"]) == Obj(map[]);
    assert PodRefs(Obj(map[]), "a") == {} by { EmptyPod(); }
  }

  lemma OddNodeRefs()
    ensures Ref("", "Secret", "a", "s") in NodeRefs(ODD_POD, "a")
  {
    assert "secretRef" in ODD_NODE.fields;
    NestedStep(ODD_NODE.fields["secretRef"], ["name"], "name");
    assert Ref("", "Secret", "a", "s") in Under("secretRef", ODD_NODE.fields["secretRef"], "a");
  }

  lemma EmptyPod()
    ensures PodRefs(Obj(map[]), "a") == {}
  {}

  lemma OddAccepted()
    ensures Transform(ODD, NO_SPEC).Accepted?
  {
    hide Cleaned, Moved, Rewritten, Nested, ViewOf, Remove;
    OddNested();
    OddView();
    CleanedAlike(ODD);
    MetadataKept(ODD);
    var cleaned := Cleaned(ODD);
    MovedAlike(cleaned, NO_SPEC);
    var moved := Moved(cleaned, NO_SPEC);
    assert VIEWED[0] == ["metadata", "namespace"] && VIEWED[1] == ["kind"] && VIEWED[2] == ["spec", "template", "spec"];
    assert KindOf(moved) == "Deployment" && NamespaceOf(moved) == "a";
    assert PerKind(moved, NO_SPEC) == Accepted(moved);
    var after := Rewritten(NO_SPEC, Plain, moved);
    RewrittenText(NO_SPEC, Plain, moved, "kind");
    ObjRewritten(NO_SPEC, moved, ["spec", "template", "spec"]);
    RemoveRewritten(NO_SPEC, ODD_POD);
    OddBare();
  }

  lemma OddBare()
    ensures Rewritten(NO_SPEC, Plain, Remove(ODD_POD, ["nodeName"])) == Obj(map[])
    ensures PodCopy(Rewritten(NO_SPEC, Plain, ODD_POD)).Accepted?
  {
    RemoveRewritten(NO_SPEC, ODD_POD);
    assert Remove(ODD_POD, ["nodeName"]) == Obj(map[]);
  }

  /** Its copy loses the reference to the secret. */
  lemma NodeNameLosesReference()
    ensures Transform(ODD, NO_SPEC).Accepted?
    ensures Ref("", "Secret", "a", "s") in Dependencies(ODD) && Dependencies(Transform(ODD, NO_SPEC).copy) == {}
  {
    hide Transform, ViewOf, Refers, NodeRefs, Remove;
    OddAccepted();
    OddRefs();
    LastingSplit(ViewOf(ODD));
    TransformLasting(ODD, NO_SPEC);
  }
}
