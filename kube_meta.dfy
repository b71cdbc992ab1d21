/**
 * The Kubernetes object metadata the server core reads and writes, the
 * component descriptors of the internal object wrappers, and the
 * required-key check that every `ValidateMetadata` shares.
 *
 * A Go error built by `utilerrors.Flatten(utilerrors.NewAggregate(list))` is
 * modelled as the list of its messages: nil exactly when the list is empty.
 */
module KubeMeta {
  import opened Labels

  const OrganizationLabel: string := "presslabs.com/organization"
  const ProjectLabel: string := "presslabs.com/project"
  const SiteLabel: string := "presslabs.com/site"
  const KindLabel: string := "presslabs.com/kind"
  const CreatedByAnnotation: string := "presslabs.com/created-by"
  const DisplayNameAnnotation: string := "presslabs.com/display-name"
  const AppNameLabel: string := "app.kubernetes.io/name"
  const AppComponentLabel: string := "app.kubernetes.io/component"

  /**
   * The metadata of one Kubernetes object, updated in place by the setters
   * of the core. A nil label or annotation map is the empty map here.
   */
  class Object {
    var name: string
    var namespace: string
    var labels: LabelSet
    var annotations: LabelSet

    constructor (name: string, namespace: string, labels: LabelSet, annotations: LabelSet)
      ensures this.name == name && this.namespace == namespace
      ensures this.labels == labels && this.annotations == annotations
    {
      this.name := name;
      this.namespace := namespace;
      this.labels := labels;
      this.annotations := annotations;
    }
  }

  /** `client.ObjectKey`: where an object lives. */
  datatype ObjectKey = ObjectKey(namespace: string, name: string)

  // ---------------------------------------------------------------------------
  // Components

  /**
   * An object-name format of a component: empty, or a `fmt.Sprintf` format
   * with one `%s` verb, held as the text before and after the verb.
   */
  datatype NameFormat = Fixed | Around(before: string, after: string)

  /** A component of a wrapped object: its `app.kubernetes.io` name and component, and how its object is named. */
  datatype Component = Component(name: string, app: string, nameFormat: NameFormat, objName: string)

  /** `ComponentName`: the fixed object name for an empty format, otherwise the format applied to `arg`. */
  function ComponentName(c: Component, arg: string): string
  {
    match c.nameFormat
    case Fixed => c.objName
    case Around(before, after) => before + arg + after
  }

  /** A formatted component name is made of the format's text around `arg`, so different arguments give different names. */
  lemma ComponentNameInjective(c: Component, arg1: string, arg2: string)
    requires c.nameFormat.Around?
    requires ComponentName(c, arg1) == ComponentName(c, arg2)
    ensures arg1 == arg2
  {
    var b, a := c.nameFormat.before, c.nameFormat.after;
    var n := ComponentName(c, arg1);
    assert |arg1| == |arg2|;
    assert arg1 == n[|b|..|b| + |arg1|] == arg2;
  }

  /** The fixed name is returned whatever the argument. */
  lemma FixedComponentNameIgnoresArgument(c: Component, arg1: string, arg2: string)
    requires c.nameFormat.Fixed?
    ensures ComponentName(c, arg1) == ComponentName(c, arg2) == c.objName
  {
  }

  /**
   * The shared tail of every `ComponentLabels`: the name and component
   * labels, each written only when the component field is non-empty.
   */
  function WithComponent(l: LabelSet, c: Component): (r: LabelSet)
    ensures r.Keys == l.Keys + (if |c.app| > 0 then {AppNameLabel} else {}) + (if |c.name| > 0 then {AppComponentLabel} else {})
    ensures forall k :: k in l && k != AppNameLabel && k != AppComponentLabel ==> r[k] == l[k]
    ensures |c.app| > 0 ==> r[AppNameLabel] == c.app
    ensures |c.name| > 0 ==> r[AppComponentLabel] == c.name
  {
    var l1 := if |c.app| > 0 then l[AppNameLabel := c.app] else l;
    if |c.name| > 0 then l1[AppComponentLabel := c.name] else l1
  }

  // ---------------------------------------------------------------------------
  // Required labels and annotations

  /** A required key is satisfied when it is present with a non-empty value. */
  predicate Present(m: LabelSet, key: string)
  {
    key in m && m[key] != ""
  }

  /** The message for a missing required key; `what` is "label" or "annotation". */
  function MissingMessage(what: string, key: string): string
  {
    "required " + what + " \"" + key + "\" is missing"
  }

  /** The messages for the keys of `keys` that `m` lacks, in the order of `keys`. */
  function Missing(m: LabelSet, keys: seq<string>, what: string): (msgs: seq<string>)
    ensures |msgs| <= |keys|
    decreases |keys|
  {
    if |keys| == 0 then []
    else
      var last := keys[|keys| - 1];
      Missing(m, keys[..|keys| - 1], what) + (if Present(m, last) then [] else [MissingMessage(what, last)])
  }

  /** The loop every `ValidateMetadata` runs over one list of required keys. */
  method CollectMissing(m: LabelSet, keys: seq<string>, what: string) returns (errs: seq<string>)
    ensures errs == Missing(m, keys, what)
  {
    errs := [];
    var i := 0;
    while i < |keys|
      invariant 0 <= i <= |keys|
      invariant errs == Missing(m, keys[..i], what)
    {
      assert keys[..i + 1][..i] == keys[..i];
      if !(keys[i] in m) || m[keys[i]] == "" {
        errs := errs + [MissingMessage(what, keys[i])];
      }
      i := i + 1;
    }
    assert keys[..i] == keys;
  }

  /** No message at all exactly when every required key is present and non-empty. */
  lemma {:induction false} MissingEmptyIff(m: LabelSet, keys: seq<string>, what: string)
    ensures Missing(m, keys, what) == [] <==> forall i :: 0 <= i < |keys| ==> Present(m, keys[i])
    decreases |keys|
  {
    if |keys| > 0 {
      var init := keys[..|keys| - 1];
      MissingEmptyIff(m, init, what);
      assert forall i :: 0 <= i < |init| ==> init[i] == keys[i];
    }
  }

  /** The message names its key: two messages of one kind are equal only for equal keys. */
  lemma MissingMessageInjective(what: string, k1: string, k2: string)
    requires MissingMessage(what, k1) == MissingMessage(what, k2)
    ensures k1 == k2
  {
    var p := "required " + what + " \"";
    var m := MissingMessage(what, k1);
    assert |k1| == |k2|;
    assert k1 == m[|p|..|p| + |k1|] == k2;
  }

  /** One message per problem: a listed key is reported exactly when it is missing or empty. */
  lemma {:induction false} MissingReportsKey(m: LabelSet, keys: seq<string>, what: string, key: string)
    requires key in keys
    ensures MissingMessage(what, key) in Missing(m, keys, what) <==> !Present(m, key)
    decreases |keys|
  {
    var last := keys[|keys| - 1];
    var init := keys[..|keys| - 1];
    if key in init {
      MissingReportsKey(m, init, what, key);
    }
    if MissingMessage(what, key) in Missing(m, init, what) {
      MissingOnlyListed(m, init, what, key);
    }
    if !Present(m, last) && MissingMessage(what, key) == MissingMessage(what, last) {
      MissingMessageInjective(what, key, last);
    }
    assert keys == init + [last];
  }

  /** Every message is the message of a listed key that is missing or empty. */
  lemma {:induction false} MissingOnlyListed(m: LabelSet, keys: seq<string>, what: string, key: string)
    requires MissingMessage(what, key) in Missing(m, keys, what)
    ensures key in keys && !Present(m, key)
    decreases |keys|
  {
    var last := keys[|keys| - 1];
    var init := keys[..|keys| - 1];
    assert keys == init + [last];
    if MissingMessage(what, key) in Missing(m, init, what) {
      MissingOnlyListed(m, init, what, key);
    } else {
      MissingMessageInjective(what, key, last);
    }
  }
}
