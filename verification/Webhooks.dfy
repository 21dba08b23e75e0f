/** The intentionally defunct admission webhook that stops the creation of volumes and claims
    in a cluster being deleted (`pkg/clusterdeletion/creation_preventing_webhook.go`), and the
    API server's rule for which requests such a webhook refuses.
 */
module Webhooks {
  import opened Options

  // ----- label selectors

  type Labels = map<string, string>

  datatype Operator = In | NotIn | Exists | DoesNotExist
  datatype RequirementRecord = RequirementRecord(key: string, operator: Operator, values: seq<string>)

  /** The API server refuses `In` and `NotIn` without values. */
  type Requirement = r: RequirementRecord | r.operator in {In, NotIn} ==> r.values != []
    witness RequirementRecord("", Exists, [])

  datatype Selector = Selector(matchLabels: Labels, expressions: seq<Requirement>)

  predicate Meets(r: Requirement, labels: Labels) {
    match r.operator
    case In => r.key in labels && labels[r.key] in r.values
    case NotIn => r.key in labels ==> labels[r.key] !in r.values
    case Exists => r.key in labels
    case DoesNotExist => r.key !in labels
  }

  predicate Selects(s: Option<Selector>, labels: Labels) {
    s.None? ||
    (&& (forall key :: key in s.value.matchLabels ==> key in labels && labels[key] == s.value.matchLabels[key])
     && (forall i :: 0 <= i < |s.value.expressions| ==> Meets(s.value.expressions[i], labels)))
  }

  predicate Unrestricted(s: Option<Selector>) {
    s.None? || (s.value.matchLabels == map[] && s.value.expressions == [])
  }

  /** Every other selector leaves something out. */
  lemma LeftOut(s: Option<Selector>) returns (labels: Labels)
    requires !Unrestricted(s)
    ensures !Selects(s, labels)
  {
    labels := map[];
    if s.value.matchLabels != map[] {
      var key :| key in s.value.matchLabels;
    } else {
      var r := s.value.expressions[0];
      if r.operator in {NotIn, DoesNotExist} {
        labels := map[r.key := if r.operator.NotIn? then r.values[0] else ""];
      }
      assert !Meets(r, labels);
    }
  }

  // ----- webhooks

  datatype Scope = AnyScope | ClusterScope | NamespacedScope
  datatype FailurePolicy = Fail | Ignore
  datatype MatchPolicy = Exact | Equivalent

  datatype Rule = Rule(
    operations: seq<string>, apiGroups: seq<string>, apiVersions: seq<string>,
    resources: seq<string>, scope: Option<Scope>)

  datatype Webhook = Webhook(
    name: string, url: Option<string>, rules: seq<Rule>, failurePolicy: Option<FailurePolicy>,
    matchPolicy: Option<MatchPolicy>, namespaceSelector: Option<Selector>, objectSelector: Option<Selector>,
    sideEffects: Option<string>, timeoutSeconds: Option<int>, admissionReviewVersions: seq<string>)

  /** The stored content of a ValidatingWebhookConfiguration. */
  datatype Content = Content(annotations: map<string, string>, webhooks: seq<Webhook>)

  const DESCRIPTION_KEY := "description"
  const DESCRIPTION := "This webhook configuration exists to prevent creation of any new stateful resources in a cluster that is currently being terminated"
  const WEBHOOK_NAME := "kubernetes.cluster.cleanup"
  const DEAD_URL := "https://127.0.0.1:1"
  const EMPTY_WEBHOOK := Webhook("", None, [], None, None, None, None, None, None, [])

  /** A kind of objects as the API names it. */
  datatype Name = Name(group: string, version: string, resource: string)

  /** `alsoServedAs` holds the other names of the same objects. `namespaceLabels` is what a
      namespace selector looks at, which cluster-scoped objects do not have.
   */
  datatype Request = Request(
    operation: string, sentAs: Name, alsoServedAs: set<Name>, namespaced: bool,
    namespaceLabels: Option<Labels>, objectLabels: Labels)

  predicate Listed(allowed: seq<string>, value: string) {
    "*" in allowed || value in allowed
  }

  predicate ScopeAdmits(scope: Option<Scope>, namespaced: bool) {
    match scope
    case None => true
    case Some(AnyScope) => true
    case Some(ClusterScope) => !namespaced
    case Some(NamespacedScope) => namespaced
  }

  predicate Names(groups: seq<string>, versions: seq<string>, resources: seq<string>, n: Name) {
    Listed(groups, n.group) && Listed(versions, n.version) && Listed(resources, n.resource)
  }

  /** A rule names the request, or the same objects under another name unless the policy is Exact. */
  predicate NamesRequest(groups: seq<string>, versions: seq<string>, resources: seq<string>, policy: Option<MatchPolicy>, r: Request) {
    || Names(groups, versions, resources, r.sentAs)
    || (policy != Some(Exact) && exists n :: n in r.alsoServedAs && Names(groups, versions, resources, n))
  }

  /** How the API server matches a request against a rule. */
  predicate Matches(rule: Rule, policy: Option<MatchPolicy>, r: Request) {
    && Listed(rule.operations, r.operation)
    && NamesRequest(rule.apiGroups, rule.apiVersions, rule.resources, policy, r)
    && ScopeAdmits(rule.scope, r.namespaced)
  }

  predicate SelectorsAdmit(namespaceSelector: Option<Selector>, objectSelector: Option<Selector>, r: Request) {
    && (r.namespaceLabels.Some? ==> Selects(namespaceSelector, r.namespaceLabels.value))
    && Selects(objectSelector, r.objectLabels)
  }

  /** Nothing listens on the webhook's URL, so under policy Fail every matched request is refused. */
  predicate RefusedBy(hook: Webhook, r: Request) {
    && hook.failurePolicy == Some(Fail)
    && hook.url == Some(DEAD_URL)
    && SelectorsAdmit(hook.namespaceSelector, hook.objectSelector, r)
    && exists i :: 0 <= i < |hook.rules| && Matches(hook.rules[i], hook.matchPolicy, r)
  }

  predicate Refuses(c: Content, r: Request) {
    exists i :: 0 <= i < |c.webhooks| && RefusedBy(c.webhooks[i], r)
  }

  // ----- creationPreventingWebhook

  /** The webhook the creator rewrites: the only one there is, or a new one. */
  function Found(c: Content): Webhook {
    if |c.webhooks| == 1 then c.webhooks[0] else EMPTY_WEBHOOK
  }

  /** The scope it carries over. Selectors and match policy are carried over by not being set. */
  function CarriedScope(c: Content): Option<Scope> {
    if Found(c).rules != [] then Found(c).rules[0].scope else None
  }

  /** What the creator promises about its result: it refuses exactly the creation of the given
      resources, as far as what it found admits them.
   */
  ghost predicate Prevents(c: Content, scope: Option<Scope>, found: Webhook, group: string, resources: seq<string>) {
    && CarriedScope(c) == scope
    && forall r: Request :: Refuses(c, r) <==>
         && r.operation == "CREATE"
         && NamesRequest([group], ["*"], resources, found.matchPolicy, r)
         && ScopeAdmits(scope, r.namespaced)
         && SelectorsAdmit(found.namespaceSelector, found.objectSelector, r)
  }

  class Configuration {
    var annotations: map<string, string>
    var webhooks: seq<Webhook>

    constructor (c: Content)
      ensures annotations == c.annotations && webhooks == c.webhooks
    {
      annotations, webhooks := c.annotations, c.webhooks;
    }

    function Value(): (c: Content)
      reads this
    {
      Content(annotations, webhooks)
    }

    /** The creator returned by `creationPreventingWebhook`. */
    method PreventCreation(apiGroup: string, resources: seq<string>)
      modifies this
      ensures Prevents(Value(), old(CarriedScope(Value())), old(Found(Value())), apiGroup, resources)
      ensures annotations == old(annotations)[DESCRIPTION_KEY := DESCRIPTION]
      ensures |webhooks| == 1 && webhooks[0].name == "kubernetes.cluster.cleanup" && webhooks[0].url == Some("https://127.0.0.1:1")
      ensures webhooks == Created(old(Value()), apiGroup, resources).webhooks
    {
      annotations := annotations[DESCRIPTION_KEY := DESCRIPTION];
      var scope := None;
      if |webhooks| != 1 {
        webhooks := [EMPTY_WEBHOOK];
      } else if |webhooks[0].rules| > 0 {
        scope := webhooks[0].rules[0].scope;
      }
      webhooks := webhooks[0 := webhooks[0].(name := WEBHOOK_NAME)];
      webhooks := webhooks[0 := webhooks[0].(url := Some(DEAD_URL))];
      webhooks := webhooks[0 := webhooks[0].(rules := [Rule(["CREATE"], [apiGroup], ["*"], resources, scope)])];
      webhooks := webhooks[0 := webhooks[0].(failurePolicy := Some(Fail))];
      webhooks := webhooks[0 := webhooks[0].(sideEffects := Some("None"))];
      webhooks := webhooks[0 := webhooks[0].(admissionReviewVersions := ["v1"])];
      CreatedPrevents(old(Value()), apiGroup, resources);
      assert Value().webhooks == Created(old(Value()), apiGroup, resources).webhooks;
    }
  }

  /** The configuration the creator leaves behind. */
  function Created(c: Content, apiGroup: string, resources: seq<string>): Content {
    Content(c.annotations[DESCRIPTION_KEY := DESCRIPTION],
            [Found(c).(name := WEBHOOK_NAME, url := Some(DEAD_URL),
                       rules := [Rule(["CREATE"], [apiGroup], ["*"], resources, CarriedScope(c))],
                       failurePolicy := Some(Fail), sideEffects := Some("None"), admissionReviewVersions := ["v1"])])
  }

  /** It keeps the promise whatever configuration it started from, and running it on its own
      result changes nothing.
   */
  lemma CreatedPrevents(c: Content, apiGroup: string, resources: seq<string>)
    ensures Prevents(Created(c, apiGroup, resources), CarriedScope(c), Found(c), apiGroup, resources)
    ensures Created(Created(c, apiGroup, resources), apiGroup, resources) == Created(c, apiGroup, resources)
  {
    var created := Created(c, apiGroup, resources);
    var hook := created.webhooks[0];
    forall r: Request
      ensures Refuses(created, r) <==>
                r.operation == "CREATE" && NamesRequest([apiGroup], ["*"], resources, Found(c).matchPolicy, r)
                && ScopeAdmits(CarriedScope(c), r.namespaced)
                && SelectorsAdmit(Found(c).namespaceSelector, Found(c).objectSelector, r)
    {
      assert Refuses(created, r) <==> RefusedBy(hook, r);
      assert (exists i :: 0 <= i < |hook.rules| && Matches(hook.rules[i], hook.matchPolicy, r)) <==>
             Matches(hook.rules[0], hook.matchPolicy, r);
    }
  }

  // ----- volumes

  const VOLUMES := "persistentvolumes"
  const CLAIMS := "persistentvolumeclaims"
  const VOLUME_RESOURCES := [VOLUMES, CLAIMS]

  /** A request to create a volume or a claim, with any labels. */
  predicate CreatesVolume(r: Request) {
    && r.operation == "CREATE"
    && (|| (r.sentAs == Name("", "v1", VOLUMES) && !r.namespaced && r.namespaceLabels.None?)
        || (r.sentAs == Name("", "v1", CLAIMS) && r.namespaced && r.namespaceLabels.Some?))
  }

  /** The configuration in place is one whose only rule refuses the creation of all volumes and
      claims.
   */
  predicate BlocksVolumes(c: Content) {
    |c.webhooks| == 1 && BlocksAll(c.webhooks[0])
  }

  predicate BlocksAll(hook: Webhook) {
    && hook.failurePolicy == Some(Fail) && hook.url == Some(DEAD_URL)
    && Unrestricted(hook.namespaceSelector) && Unrestricted(hook.objectSelector)
    && |hook.rules| == 1 && CoversVolumes(hook.rules[0])
  }

  predicate CoversVolumes(rule: Rule) {
    rule.scope in {None, Some(AnyScope)} && rule == Rule(["CREATE"], [""], ["*"], VOLUME_RESOURCES, rule.scope)
  }

  lemma BlockedVolumesAreRefused(c: Content, r: Request)
    requires BlocksVolumes(c) && CreatesVolume(r)
    ensures Refuses(c, r)
  {
    var hook := c.webhooks[0];
    assert VOLUME_RESOURCES[0] == VOLUMES && VOLUME_RESOURCES[1] == CLAIMS;
    assert Names(hook.rules[0].apiGroups, hook.rules[0].apiVersions, hook.rules[0].resources, r.sentAs);
    assert Matches(hook.rules[0], hook.matchPolicy, r);
    assert RefusedBy(hook, r);
  }

  /** Nothing in the configuration found would narrow the new one down. */
  predicate Harmless(c: Content) {
    && CarriedScope(c) in {None, Some(AnyScope)}
    && Unrestricted(Found(c).namespaceSelector) && Unrestricted(Found(c).objectSelector)
  }

  /** The creation of volumes and claims is blocked exactly when that is so: when the scope found
      is absent or covers every object and neither selector found selects.
   */
  lemma BlocksVolumesExactly(c: Content)
    ensures var created := Created(c, "", VOLUME_RESOURCES);
            && (BlocksVolumes(created) <==> Harmless(c))
            && (Harmless(created) <==> Harmless(c))
            && ((forall r :: CreatesVolume(r) ==> Refuses(created, r)) <==> Harmless(c))
  {
    var created := Created(c, "", VOLUME_RESOURCES);
    assert CoversVolumes(created.webhooks[0].rules[0]) <==> CarriedScope(c) in {None, Some(AnyScope)};
    if Harmless(c) {
      forall r | CreatesVolume(r) ensures Refuses(created, r) {
        BlockedVolumesAreRefused(created, r);
      }
    } else {
      var r := LetThrough(c);
    }
  }

  /** A creation that gets through otherwise. */
  lemma LetThrough(c: Content) returns (r: Request)
    requires !Harmless(c)
    ensures CreatesVolume(r) && !Refuses(Created(c, "", VOLUME_RESOURCES), r)
  {
    CreatedPrevents(c, "", VOLUME_RESOURCES);
    var claim := Request("CREATE", Name("", "v1", CLAIMS), {}, true, Some(map[]), map[]);
    if CarriedScope(c) == Some(ClusterScope) {
      r := claim;
    } else if CarriedScope(c) == Some(NamespacedScope) {
      r := Request("CREATE", Name("", "v1", VOLUMES), {}, false, None, map[]);
    } else if !Unrestricted(Found(c).namespaceSelector) {
      var labels := LeftOut(Found(c).namespaceSelector);
      r := claim.(namespaceLabels := Some(labels));
    } else {
      var labels := LeftOut(Found(c).objectSelector);
      r := claim.(objectLabels := labels);
    }
  }
}
