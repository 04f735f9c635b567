/** The annotation that leads from a destination back to its source. */
module Annotations {
  import opened Common
  import opened Apis
  import opened ClusterModel

  function Print(ns: string, name: string): string {
    ns + "/" + name
  }

  /** The text before and after the first slash, if there is one. */
  function SplitOnce(text: string): Option<(string, string)> {
    if text == "" then None
    else if text[0] == '/' then Some(("", text[1..]))
    else match SplitOnce(text[1..])
      case Some((before, after)) => Some(([text[0]] + before, after))
      case None => None
  }

  /** The source a watched destination leads to. */
  function Parse(annotation: string, isTarget: bool): Option<NamespacedName> {
    match SplitOnce(annotation)
    case Some((ns, name)) => if isTarget && name != "" then Some(NamespacedName(ns, name)) else None
    case None => None
  }

  lemma {:induction false} SplitPrinted(ns: string, name: string)
    requires '/' !in ns
    ensures SplitOnce(Print(ns, name)) == Some((ns, name))
  {
    var text := Print(ns, name);
    if ns == "" {
      assert text[1..] == name;
    } else {
      assert text[1..] == Print(ns[1..], name);
      SplitPrinted(ns[1..], name);
      assert [text[0]] + ns[1..] == ns;
    }
  }

  /** What a split yields puts the text together again, with no slash before the first one. */
  lemma {:induction false} SplitIsExact(text: string)
    ensures SplitOnce(text).None? <==> '/' !in text
    ensures SplitOnce(text).Some? ==>
              var (before, after) := SplitOnce(text).value;
              text == Print(before, after) && '/' !in before
  {
    if text != "" && text[0] != '/' {
      SplitIsExact(text[1..]);
      assert text == [text[0]] + text[1..];
    }
  }

  /** Exactly when parsing a printed annotation leads back. */
  lemma RoundTrip(ns: string, name: string, isTarget: bool)
    ensures Parse(Print(ns, name), isTarget) == Some(NamespacedName(ns, name)) <==>
            isTarget && name != "" && '/' !in ns
  {
    if '/' !in ns {
      SplitPrinted(ns, name);
    } else {
      SplitIsExact(Print(ns, name));
    }
  }

  /** Nothing is parsed that was not printed. */
  lemma ParsedWasPrinted(annotation: string, isTarget: bool)
    requires Parse(annotation, isTarget).Some?
    ensures
      var source := Parse(annotation, isTarget).value;
      annotation == Print(source.namespace, source.name) && source.name != "" && '/' !in source.namespace
  {
    SplitIsExact(annotation);
  }

  /** A destination that still carries its template is labelled as managed by this
      controller and leads back to its source, so the watch on it finds both. */
  lemma DestinationLeadsBack(source: Snapshot, payload: Payload)
    requires CoveredBy(Template(source), payload)
    requires source.key.name != "" && '/' !in source.key.namespace
    ensures Label(MANAGED_BY) in payload && payload[Label(MANAGED_BY)] == MANAGER
    ensures Annotation(SOURCE_OBJECT_ANNOTATION) in payload
    ensures Parse(payload[Annotation(SOURCE_OBJECT_ANNOTATION)], true) == Some(NamespacedName(source.key.namespace, source.key.name))
  {
    assert Label(MANAGED_BY) in Template(source) && Template(source)[Label(MANAGED_BY)] == MANAGER;
    var f := Annotation(SOURCE_OBJECT_ANNOTATION);
    assert f in Template(source) && Template(source)[f] == source.key.namespace + "/" + source.key.name;
    assert source.key.namespace + "/" + source.key.name == Print(source.key.namespace, source.key.name);
    RoundTrip(source.key.namespace, source.key.name, true);
  }
}
