// The ext-data callback libyang invokes for an RFC 8528 schema-mount
// mount point below a network instance: the checks on the extension, the
// mount label, the ext-data document it synthesises (RFC 8525 yang-library
// data plus RFC 8528 schema-mounts data), the parse under a recursion
// guard, the validation, and the hand-back of the parsed tree with its
// ownership flag. libyang's parser and validator are oracle parameters.
module ExtData {
  import opened Wrappers
  import opened YangTree

  /** `LY_ERR` codes the callback returns itself. */
  const LY_SUCCESS: int := 0
  const LY_EINVAL: int := 3

  /** The kind of statement an extension instance sits in. */
  datatype Stmt = ContainerStmt | ListStmt | OtherStmt

  /** The extension's definition: its defining module (by name) and its
      own name, either of which may be missing. */
  datatype ExtDef = ExtDef(moduleName: Option<string>, name: Option<string>)

  /** A compiled extension instance: its definition, the statement it sits
      in, its argument, and the name of the schema node it sits in. */
  datatype ExtInstance = ExtInstance(
    def: Option<ExtDef>,
    parentStmt: Stmt,
    argument: Option<string>,
    parentName: Option<string>)

  /** What `lyd_parse_data_mem` reports: a code, and the tree it built
      (possibly partial when the code is an error). */
  datatype Parsed = Parsed(rc: int, data: Option<Node>)

  /** The callback's effect: its return code, `*ext_data`, `*free_ext_data`,
      and the tree it freed before returning, if any. */
  datatype Outcome = Outcome(rc: int, extData: Option<Node>, free: bool, freed: Option<Node>)

  /** Both out-parameters cleared and nothing freed. */
  function Cleared(rc: int): Outcome
  {
    Outcome(rc, None, false, None)
  }

  // ---------------------------------------------------------------------
  // Which extensions are served

  /** The definition pointers are all there. */
  predicate WellFormed(ext: Option<ExtInstance>)
  {
    ext.Some? && ext.value.def.Some? && ext.value.def.value.moduleName.Some? && ext.value.def.value.name.Some?
  }

  /** `ietf-yang-schema-mount:mount-point`. */
  predicate IsMountPoint(d: ExtDef)
    requires d.moduleName.Some? && d.name.Some?
  {
    d.moduleName.value == "ietf-yang-schema-mount" && d.name.value == "mount-point"
  }

  /** The mount label: the extension's argument when it is non-empty,
      otherwise the name of the schema node holding the extension. */
  function Label(e: ExtInstance): (r: Option<string>)
    ensures e.argument.Some? && e.argument.value != "" ==> r == e.argument
    ensures (e.argument.None? || e.argument.value == "") ==> r == e.parentName
  {
    if e.argument.Some? && e.argument.value != "" then e.argument else e.parentName
  }

  /** An extension the callback goes on to parse ext-data for. */
  predicate Accepted(ext: Option<ExtInstance>)
  {
    && WellFormed(ext)
    && IsMountPoint(ext.value.def.value)
    && (ext.value.parentStmt == ContainerStmt || ext.value.parentStmt == ListStmt)
    && Label(ext.value).Some?
  }

  // ---------------------------------------------------------------------
  // The ext-data document

  /** The elements the document uses. */
  datatype Tag =
    | YangLibrary | ModuleSet | Name | ModuleTag | Revision | Namespace | ImportOnlyModule
    | SchemaTag | Datastore | ContentId | ModulesState | ModuleSetId
    | SchemaMounts | MountPoint | LabelTag | Inline

  function TagName(t: Tag): string
  {
    match t
    case YangLibrary => "yang-library"
    case ModuleSet => "module-set"
    case Name => "name"
    case ModuleTag => "module"
    case Revision => "revision"
    case Namespace => "namespace"
    case ImportOnlyModule => "import-only-module"
    case SchemaTag => "schema"
    case Datastore => "datastore"
    case ContentId => "content-id"
    case ModulesState => "modules-state"
    case ModuleSetId => "module-set-id"
    case SchemaMounts => "schema-mounts"
    case MountPoint => "mount-point"
    case LabelTag => "label"
    case Inline => "inline"
  }

  /** The namespace of an IETF YANG module. */
  function IetfNamespace(mod: string): string
  {
    "urn:ietf:params:xml:ns:yang:" + mod
  }

  /** A start tag's attribute: the default namespace of a module, or the
      `ds` prefix bound to ietf-datastores. */
  datatype Attr = NoAttr | Xmlns(mod: string) | XmlnsDs

  /** One token of the document. */
  datatype Xml = Open(tag: Tag, attr: Attr) | Close(tag: Tag) | EmptyElem(tag: Tag) | Text(text: string)

  function AttrText(a: Attr): string
  {
    match a
    case NoAttr => ""
    case Xmlns(mod) => " xmlns=\"" + IetfNamespace(mod) + "\""
    case XmlnsDs => " xmlns:ds=\"" + IetfNamespace("ietf-datastores") + "\""
  }

  function TokenText(x: Xml): string
  {
    match x
    case Open(t, a) => "<" + TagName(t) + AttrText(a) + ">"
    case Close(t) => "</" + TagName(t) + ">"
    case EmptyElem(t) => "<" + TagName(t) + "/>"
    case Text(s) => s
  }

  /** The concatenation of a list of strings. */
  function Flatten(ss: seq<string>): string
  {
    if ss == [] then "" else Flatten(ss[..|ss| - 1]) + ss[|ss| - 1]
  }

  /** The text of a token sequence, with no whitespace between tokens. */
  function Render(xs: seq<Xml>): string
  {
    Flatten(seq(|xs|, i requires 0 <= i < |xs| => TokenText(xs[i])))
  }

  /** `<t>text</t>`. */
  function LeafElem(t: Tag, text: string): seq<Xml>
  {
    [Open(t, NoAttr), Text(text), Close(t)]
  }

  /** A module of the mounted schema, with its revision; the type modules
      are import-only. */
  datatype LibraryModule = LibraryModule(name: string, revision: string, importOnly: bool)

  /** The module set `vrf-modules`: routing with its IPv4 and IPv6
      augments, interfaces and ip, and the type modules they import. */
  const VRF_MODULES: seq<LibraryModule> := [
    LibraryModule("ietf-routing", "2018-03-13", false),
    LibraryModule("ietf-ipv4-unicast-routing", "2018-03-13", false),
    LibraryModule("ietf-ipv6-unicast-routing", "2018-03-13", false),
    LibraryModule("ietf-interfaces", "2018-02-20", false),
    LibraryModule("ietf-ip", "2018-02-22", false),
    LibraryModule("ietf-inet-types", "2013-07-15", true),
    LibraryModule("ietf-yang-types", "2013-07-15", true),
    LibraryModule("iana-if-type", "2023-01-26", true)]

  /** One `module` or `import-only-module` entry: name, revision, namespace. */
  function ModuleEntry(m: LibraryModule): seq<Xml>
  {
    var t := if m.importOnly then ImportOnlyModule else ModuleTag;
    [Open(t, NoAttr)]
    + LeafElem(Name, m.name) + LeafElem(Revision, m.revision) + LeafElem(Namespace, IetfNamespace(m.name))
    + [Close(t)]
  }

  function ModuleEntries(ms: seq<LibraryModule>): seq<Xml>
  {
    if ms == [] then [] else ModuleEntries(ms[..|ms| - 1]) + ModuleEntry(ms[|ms| - 1])
  }

  /** A datastore using the schema `vrf-schema`. */
  function DatastoreElem(name: string): seq<Xml>
  {
    [Open(Datastore, XmlnsDs)] + LeafElem(Name, name) + LeafElem(SchemaTag, "vrf-schema") + [Close(Datastore)]
  }

  /** RFC 8525 yang-library data: the module set, the schema `vrf-schema`
      built from it, the running and operational datastores using that
      schema, and content-id 1; then the modules-state with module-set-id 1. */
  function Library(ms: seq<LibraryModule>): seq<Xml>
  {
    [Open(YangLibrary, Xmlns("ietf-yang-library")), Open(ModuleSet, NoAttr)]
    + LeafElem(Name, "vrf-modules") + ModuleEntries(ms) + [Close(ModuleSet)]
    + [Open(SchemaTag, NoAttr)] + LeafElem(Name, "vrf-schema") + LeafElem(ModuleSet, "vrf-modules") + [Close(SchemaTag)]
    + DatastoreElem("ds:running") + DatastoreElem("ds:operational")
    + LeafElem(ContentId, "1")
    + [Close(YangLibrary)]
    + [Open(ModulesState, Xmlns("ietf-yang-library"))] + LeafElem(ModuleSetId, "1") + [Close(ModulesState)]
  }

  /** Everything before the label: the library data, then RFC 8528
      schema-mounts data opening a mount point of ietf-network-instance. */
  function MountHead(): seq<Xml>
  {
    Library(VRF_MODULES)
    + [Open(SchemaMounts, Xmlns("ietf-yang-schema-mount")), Open(MountPoint, NoAttr)]
    + LeafElem(ModuleTag, "ietf-network-instance")
    + [Open(LabelTag, NoAttr)]
  }

  /** Everything after the label: the mount point is inline. */
  const MOUNT_TAIL: seq<Xml> := [Close(LabelTag), EmptyElem(Inline), Close(MountPoint), Close(SchemaMounts)]

  /** The ext-data document for a mount label, the label inserted verbatim
      as the text of `<label>`. */
  function MountDoc(mountLabel: string): seq<Xml>
  {
    MountHead() + [Text(mountLabel)] + MOUNT_TAIL
  }

  /** The text `lyd_parse_data_mem` is given. */
  function MountXml(mountLabel: string): string
  {
    Render(MountDoc(mountLabel))
  }

  lemma {:induction false} FlattenAppend(a: seq<string>, b: seq<string>)
    ensures Flatten(a + b) == Flatten(a) + Flatten(b)
    decreases |b|
  {
    if b == [] {
      assert a + b == a;
    } else {
      var ab := a + b;
      assert ab[..|ab| - 1] == a + b[..|b| - 1];
      FlattenAppend(a, b[..|b| - 1]);
    }
  }

  lemma RenderAppend(a: seq<Xml>, b: seq<Xml>)
    ensures Render(a + b) == Render(a) + Render(b)
  {
    var ta := seq(|a|, i requires 0 <= i < |a| => TokenText(a[i]));
    var tb := seq(|b|, i requires 0 <= i < |b| => TokenText(b[i]));
    var ab := a + b;
    assert seq(|ab|, i requires 0 <= i < |ab| => TokenText(ab[i])) == ta + tb;
    FlattenAppend(ta, tb);
  }

  lemma RenderText(t: string)
    ensures Render([Text(t)]) == t
  {
    var ts := seq(1, i requires 0 <= i < 1 => TokenText([Text(t)][i]));
    assert ts == [t];
    assert ts[..0] == [];
    assert Flatten(ts) == Flatten([]) + t;
  }

  /** The label appears verbatim between the fixed text before it and the
      fixed text after it. */
  lemma MountXmlSplit(mountLabel: string)
    ensures MountXml(mountLabel) == Render(MountHead()) + mountLabel + Render(MOUNT_TAIL)
  {
    RenderAppend(MountHead() + [Text(mountLabel)], MOUNT_TAIL);
    RenderAppend(MountHead(), [Text(mountLabel)]);
    RenderText(mountLabel);
  }

  /** The mount point is declared inline, after the label. */
  lemma MountDocInline(mountLabel: string)
    ensures var d := MountDoc(mountLabel);
            d[|d| - 5] == Text(mountLabel) && d[|d| - 3] == EmptyElem(Inline)
  {
  }

  /** The label read back out of an ext-data document's text. */
  function LabelOf(xml: string): string
  {
    var head, tail := Render(MountHead()), Render(MOUNT_TAIL);
    if |head| + |tail| <= |xml| then xml[|head|..|xml| - |tail|] else ""
  }

  /** The label is recoverable from the document's text. */
  lemma LabelRoundTrip(mountLabel: string)
    ensures LabelOf(MountXml(mountLabel)) == mountLabel
  {
    MountXmlSplit(mountLabel);
    var head, tail := Render(MountHead()), Render(MOUNT_TAIL);
    assert (head + mountLabel + tail)[|head|..|head + mountLabel + tail| - |tail|] == mountLabel;
  }

  /** Distinct labels give distinct documents. */
  lemma MountXmlInjective(a: string, b: string)
    requires MountXml(a) == MountXml(b)
    ensures a == b
  {
    LabelRoundTrip(a);
    LabelRoundTrip(b);
  }

  // ---------------------------------------------------------------------
  // What one unguarded call does

  /** `validate_ext_data`: `lyd_validate_all` on the parsed tree, whose code
      `validate` gives; on failure the tree is freed and the pointer
      nulled. */
  method ValidateExtData(data: Node, validate: Node -> int) returns (rc: int, kept: Option<Node>)
    ensures rc == validate(data)
    ensures kept.Some? <==> rc == LY_SUCCESS
    ensures kept.Some? ==> kept.value == data
  {
    rc := validate(data);
    if rc != LY_SUCCESS {
      return rc, None;
    }
    return LY_SUCCESS, Some(data);
  }

  /** The callback entered with the guard down, for libyang's parser
      `parse` and validator `validate`: an extension that is not
      well-formed, not a mount point, not in a container or list, or
      without a label is refused with EINVAL; otherwise the ext-data
      document for its label is parsed, a parse error or an empty parse is
      returned as such, and a tree that validates is handed back for
      libyang to free. */
  function Resolve(ext: Option<ExtInstance>, parse: string -> Parsed, validate: Node -> int): (r: Outcome)
    ensures !Accepted(ext) ==> r == Cleared(LY_EINVAL)
    ensures r.rc == LY_SUCCESS <==> r.extData.Some?
    ensures r.free <==> r.extData.Some?
    ensures r.extData.Some? ==>
              && Accepted(ext)
              && r.extData == parse(MountXml(Label(ext.value).value)).data
              && validate(r.extData.value) == LY_SUCCESS
    ensures Accepted(ext) && parse(MountXml(Label(ext.value).value)).data.Some? ==>
              (r.extData.Some? <==> r.freed.None?)
              && (r.extData.Some? ==> r.extData == parse(MountXml(Label(ext.value).value)).data)
              && (r.freed.Some? ==> r.freed == parse(MountXml(Label(ext.value).value)).data)
    ensures r.freed.Some? ==> r.rc != LY_SUCCESS
  {
    if !Accepted(ext) then Cleared(LY_EINVAL)
    else AfterParse(parse(MountXml(Label(ext.value).value)), validate)
  }

  /** What the callback returns once the document is parsed: a parse error
      as it is, with whatever tree came back freed; EINVAL for an empty
      parse; a validation error with the tree freed; otherwise the tree,
      for libyang to free. */
  function AfterParse(p: Parsed, validate: Node -> int): Outcome
  {
    if p.rc != LY_SUCCESS then Outcome(p.rc, None, false, p.data)
    else if p.data.None? then Cleared(LY_EINVAL)
    else if validate(p.data.value) != LY_SUCCESS then Outcome(validate(p.data.value), None, false, p.data)
    else Outcome(LY_SUCCESS, p.data, true, None)
  }

  /** The checks before the document is built: the definition pointers, the
      mount-point extension, a container or list parent, and a label from
      the argument or the parent's name. */
  method CheckExtension(ext: Option<ExtInstance>) returns (mountLabel: Option<string>)
    ensures mountLabel.Some? <==> Accepted(ext)
    ensures mountLabel.Some? ==> mountLabel == Label(ext.value)
  {
    if ext.None? || ext.value.def.None? || ext.value.def.value.moduleName.None? || ext.value.def.value.name.None? {
      return None;
    }
    var e := ext.value;
    if e.def.value.moduleName.value != "ietf-yang-schema-mount" || e.def.value.name.value != "mount-point" {
      return None;
    }
    if e.parentStmt != ContainerStmt && e.parentStmt != ListStmt {
      return None;
    }
    mountLabel := e.argument;
    if mountLabel.None? || mountLabel.value == "" {
      mountLabel := e.parentName;
    }
  }

  /** The handling of the parse result, validation included. */
  method HandBack(parsed: Parsed, validate: Node -> int) returns (out: Outcome)
    ensures out == AfterParse(parsed, validate)
    ensures out.rc == LY_SUCCESS <==> out.extData.Some?
    ensures out.freed.Some? ==> out.rc != LY_SUCCESS && out.freed == parsed.data
  {
    if parsed.rc != LY_SUCCESS {
      return Outcome(parsed.rc, None, false, parsed.data);
    }
    if parsed.data.None? {
      return Cleared(LY_EINVAL);
    }
    var rc, kept := ValidateExtData(parsed.data.value, validate);
    if rc != LY_SUCCESS {
      return Outcome(rc, None, false, parsed.data);
    }
    return Outcome(LY_SUCCESS, kept, true, None);
  }

  /** A successful hand-back always carries the document for the label
      the extension names. */
  lemma HandedBackLabel(ext: Option<ExtInstance>, parse: string -> Parsed, validate: Node -> int)
    requires Resolve(ext, parse, validate).rc == LY_SUCCESS
    ensures Accepted(ext)
    ensures var l := Label(ext.value).value;
            && (ext.value.argument.Some? && ext.value.argument.value != "" ==> l == ext.value.argument.value)
            && Resolve(ext, parse, validate).extData == parse(MountXml(l)).data
            && LabelOf(MountXml(l)) == l
  {
    LabelRoundTrip(Label(ext.value).value);
  }

  // ---------------------------------------------------------------------
  // The callback and its guard

  /** `IetfNetworkInstances::extDataCallback` with its thread-local
      recursion guard, one flag here. */
  class ExtDataCallback {
    var recursionGuard: bool

    constructor()
      ensures !recursionGuard
    {
      recursionGuard := false;
    }

    /** One invocation. `reentries` are the extensions for which libyang
        calls back into the callback while it parses the ext-data document;
        `nested` are those calls' outcomes. The guard is raised only around
        the parse, so every nested call returns success with nothing handed
        back, and it is down again on every return. */
    method Callback(ext: Option<ExtInstance>, parse: string -> Parsed, validate: Node -> int,
                    reentries: seq<Option<ExtInstance>>)
      returns (out: Outcome, nested: seq<Outcome>)
      modifies this
      decreases |reentries|
      ensures recursionGuard == old(recursionGuard)
      ensures old(recursionGuard) ==> out == Cleared(LY_SUCCESS) && nested == []
      ensures !old(recursionGuard) ==> out == Resolve(ext, parse, validate)
      ensures forall k :: 0 <= k < |nested| ==> nested[k] == Cleared(LY_SUCCESS)
    {
      nested := [];
      if recursionGuard {
        return Cleared(LY_SUCCESS), [];
      }
      var mountLabel := CheckExtension(ext);
      if mountLabel.None? {
        return Cleared(LY_EINVAL), [];
      }
      var xml := MountXml(mountLabel.value);

      recursionGuard := true;
      var i := 0;
      while i < |reentries|
        invariant 0 <= i <= |reentries|
        invariant recursionGuard
        invariant |nested| == i
        invariant forall k :: 0 <= k < i ==> nested[k] == Cleared(LY_SUCCESS)
      {
        var o, _ := Callback(reentries[i], parse, validate, []);
        nested := nested + [o];
        i := i + 1;
      }
      var parsed := parse(xml);
      recursionGuard := false;
      out := HandBack(parsed, validate);
    }
  }
}
