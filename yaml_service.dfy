/** The structural validator and formatter for compose documents
    (`services/yamlService.ts`).  The YAML 1.2 loader and dumper (js-yaml) are
    not modelled: every operation takes them as function parameters. */
module YamlService {

  import opened Wrappers
  import opened Text
  import opened Types

  /** A value js-yaml's `load` produces, seen as the JavaScript value the
      validator inspects.  A mapping lists its own properties in iteration
      order; js-yaml rejects duplicated keys, so each key occurs once. */
  datatype Node =
    | Undefined                       // the result of loading a comment-only document
    | Null
    | Bool(b: bool)
    | Num(n: int)
    | Str(s: string)
    | Seq(items: seq<Node>)
    | Map(entries: seq<(string, Node)>)

  /** What `yaml.load` does with a text: returns a tree, or throws an exception
      carrying a message (empty when it has none) and, optionally, the 0-based
      line of its mark. */
  datatype LoadOutcome =
    | Loaded(doc: Node)
    | Threw(message: string, markLine: Option<nat>)

  /** ECMAScript ToBoolean: `null`, `undefined`, `false`, `0` and `''` are falsy;
      every array and object, even an empty one, is truthy. */
  predicate Truthy(n: Node) {
    match n
    case Undefined => false
    case Null => false
    case Bool(b) => b
    case Num(k) => k != 0
    case Str(s) => s != ""
    case Seq(_) => true
    case Map(_) => true
  }

  /** `typeof n === 'object'`, which holds for `null` and for arrays. */
  predicate IsObject(n: Node) {
    n.Null? || n.Seq? || n.Map?
  }

  /** The value bound to `key` in a list of properties, `undefined` if none. */
  function Lookup(entries: seq<(string, Node)>, key: string): Node {
    if entries == [] then Undefined
    else if entries[0].0 == key then entries[0].1
    else Lookup(entries[1..], key)
  }

  /** The property read `n[key]` for the keys the validator reads: a mapping
      answers from its own entries; arrays, strings and the other scalars have
      no such property. */
  function Get(n: Node, key: string): Node {
    if n.Map? then Lookup(n.entries, key) else Undefined
  }

  /** `Object.entries(n)` of an object: a mapping's entries, or an array's
      elements under the keys "0", "1", ... */
  function Entries(n: Node): (r: seq<(string, Node)>)
    ensures n.Map? ==> r == n.entries
    ensures n.Seq? ==> |r| == |n.items| && forall i | 0 <= i < |r| :: r[i] == (DecimalString(i), n.items[i])
    ensures !(n.Seq? || n.Map?) ==> r == []
  {
    match n
    case Map(entries) => entries
    case Seq(items) => seq(|items|, i requires 0 <= i < |items| => (DecimalString(i), items[i]))
    case _ => []
  }

  /** `Object.keys(n)`. */
  function Keys(n: Node): (r: seq<string>)
    ensures |r| == |Entries(n)|
    ensures forall i | 0 <= i < |r| :: r[i] == Entries(n)[i].0
  {
    var e := Entries(n);
    seq(|e|, i requires 0 <= i < |e| => e[i].0)
  }

  // The fixed messages are written in two pieces so that the verifier can
  // look at their first characters.
  const ROOT_ERROR := "Document must be an object " + "(Docker Compose root)"
  const VERSION_ERROR := "'version' must be a string " + "(e.g., '3.8')"
  const SERVICES_ERROR := "'services' must be a mapping " + "of service names"

  /** The first characters that tell the fixed messages apart. */
  lemma FixedMessageHeads()
    ensures |ROOT_ERROR| > 1 && |VERSION_ERROR| > 1 && |SERVICES_ERROR| > 1
    ensures ROOT_ERROR[0] == 'D'
    ensures VERSION_ERROR[0] == '\'' && VERSION_ERROR[1] == 'v'
    ensures SERVICES_ERROR[0] == '\'' && SERVICES_ERROR[1] == 's'
  {
  }

  /** "Service '<name>'" followed by what is wrong with it. */
  function ServiceMessage(name: string, problem: string): string {
    "Service '" + name + "'" + problem
  }

  lemma ServiceMessageNamesService(name: string, problem: string)
    ensures StartsWith(ServiceMessage(name, problem), "Service '" + name + "'")
  {
    var head := "Service '" + name + "'";
    assert ServiceMessage(name, problem)[..|head|] == head;
  }

  function MappingError(name: string): string {
    ServiceMessage(name, " must be a mapping configuration")
  }

  function ImageOrBuildError(name: string): string {
    ServiceMessage(name, " must specify either 'image' or 'build'")
  }

  function PortsError(name: string): string {
    ServiceMessage(name, " ports must be a list")
  }

  function VolumesError(name: string): string {
    ServiceMessage(name, " volumes must be a list or mapping")
  }

  function UnknownKeyError(key: string): string {
    "Unknown root level key: '" + key + "'"
  }

  /** The four checks of one service entry, in the order the loop body runs
      them; the first that fails gives the message. */
  function ServiceError(service: (string, Node)): Option<string> {
    var (name, config) := service;
    if !IsObject(config) || config.Null? then Some(MappingError(name))
    else if !Truthy(Get(config, "image")) && !Truthy(Get(config, "build")) then Some(ImageOrBuildError(name))
    else if Truthy(Get(config, "ports")) && !Get(config, "ports").Seq? then Some(PortsError(name))
    else if Truthy(Get(config, "volumes")) && !Get(config, "volumes").Seq? && !IsObject(Get(config, "volumes"))
    then Some(VolumesError(name))
    else None
  }

  /** Entry `i` is the first service entry that fails its checks. */
  predicate FirstFailingService(services: seq<(string, Node)>, i: int) {
    && 0 <= i < |services|
    && ServiceError(services[i]).Some?
    && forall j | 0 <= j < i :: ServiceError(services[j]).None?
  }

  /** The `for ... of Object.entries(services)` loop, which returns on the first
      failing entry. */
  function FirstServiceError(services: seq<(string, Node)>): (r: Option<string>)
    ensures r.None? <==> forall i | 0 <= i < |services| :: ServiceError(services[i]).None?
    ensures r.Some? ==> exists i :: FirstFailingService(services, i) && r == ServiceError(services[i])
  {
    if services == [] then None
    else if ServiceError(services[0]).Some? then
      assert FirstFailingService(services, 0);
      ServiceError(services[0])
    else
      var r := FirstServiceError(services[1..]);
      assert forall i | 1 <= i < |services| :: services[i] == services[1..][i - 1];
      if r.Some? then
        var i :| FirstFailingService(services[1..], i) && r == ServiceError(services[1..][i]);
        assert FirstFailingService(services, i + 1);
        r
      else r
  }

  /** The `validRootKeys` whitelist. */
  const VALID_ROOT_KEYS: seq<string> := ["version", "services", "volumes", "networks", "secrets", "configs", "x-"]

  /** `validRootKeys.some(vk => k.startsWith(vk))`: a prefix test, so `versions`
      and `volumes_x` pass as well as every `x-` extension key. */
  predicate KnownRootKey(k: string) {
    exists vk | vk in VALID_ROOT_KEYS :: StartsWith(k, vk)
  }

  /** `keys.filter(k => !KnownRootKey(k))`. */
  function UnknownKeys(keys: seq<string>): (r: seq<string>)
    ensures forall k | k in r :: k in keys && !KnownRootKey(k)
    ensures forall k | k in keys && !KnownRootKey(k) :: k in r
    ensures r != [] ==> exists i | 0 <= i < |keys| :: keys[i] == r[0] && forall j | 0 <= j < i :: KnownRootKey(keys[j])
  {
    if keys == [] then []
    else
      var rest := UnknownKeys(keys[1..]);
      assert forall i | 1 <= i < |keys| :: keys[i] == keys[1..][i - 1];
      if KnownRootKey(keys[0]) then
        assert rest != [] ==> exists i | 0 <= i < |keys| :: keys[i] == rest[0] && forall j | 0 <= j < i :: KnownRootKey(keys[j]) by {
          if rest != [] {
            var i :| 0 <= i < |keys[1..]| && keys[1..][i] == rest[0] && forall j | 0 <= j < i :: KnownRootKey(keys[1..][j]);
            assert keys[i + 1] == rest[0];
          }
        }
        rest
      else
        [keys[0]] + rest
  }

  /** `validateDockerComposeStructure`: the shallow, first-error-wins check of
      a loaded document. */
  function ValidateStructure(doc: Node): (r: ValidationResult)
    ensures r.isValid <==> r.error.None?
    ensures r.line.None?
  {
    if !IsObject(doc) || doc.Null? then Invalid(ROOT_ERROR)
    else if Truthy(Get(doc, "version")) && !Get(doc, "version").Str? then Invalid(VERSION_ERROR)
    else if Truthy(Get(doc, "services")) then
      var services := Get(doc, "services");
      if !IsObject(services) then Invalid(SERVICES_ERROR)
      else
        match FirstServiceError(Entries(services))
        case Some(message) => Invalid(message)
        case None => VALID
    else if |Keys(doc)| > 0 then
      var unknown := UnknownKeys(Keys(doc));
      if |unknown| > 0 then Invalid(UnknownKeyError(unknown[0])) else VALID
    else VALID
  }

  /** `validateYaml`: blank text is valid; a loader exception becomes an
      invalid verdict with its message and, when it has a mark, a 1-based line; a loaded tree goes to
      the structural check. */
  function ValidateYaml(content: string, load: string -> LoadOutcome): (r: ValidationResult)
    ensures r.isValid <==> r.error.None?
    ensures r.isValid ==> r.line.None?
    ensures r.line.Some? ==> r.line.value >= 1
  {
    if content == "" || Trim(content) == "" then VALID
    else
      match load(content)
      case Threw(message, markLine) =>
        ValidationResult(
          false,
          Some(if message != "" then message else "Invalid YAML"),
          if markLine.Some? then Some(markLine.value + 1) else None)
      case Loaded(doc) => ValidateStructure(doc)
  }

  /** `formatYaml`: the dump (2-space indent, unbounded width) of the loaded
      tree, or the input itself when loading or dumping throws. */
  function FormatYaml(content: string, load: string -> LoadOutcome, dump: Node -> Option<string>): string {
    match load(content)
    case Threw(_, _) => content
    case Loaded(doc) =>
      match dump(doc)
      case None => content
      case Some(out) => out
  }

  // ---------------------------------------------------------------------
  // Properties of the validator and the formatter

  /** Empty and whitespace-only texts are valid, whatever the loader would say. */
  lemma BlankIsValid(content: string, load: string -> LoadOutcome)
    requires AllSpace(content)
    ensures ValidateYaml(content, load) == VALID
  {
  }

  /** Text that is not blank and that the loader rejects is invalid, with the
      loader's message (or 'Invalid YAML' when it has none) and the mark's
      0-based line plus one (absent when the exception has no mark). */
  lemma LoaderFailure(content: string, load: string -> LoadOutcome)
    requires !AllSpace(content) && load(content).Threw?
    ensures var r := ValidateYaml(content, load);
      && !r.isValid
      && r.error == Some(if load(content).message == "" then "Invalid YAML" else load(content).message)
      && (r.line.Some? <==> load(content).markLine.Some?)
      && (r.line.Some? ==> r.line.value == load(content).markLine.value + 1 >= 1)
  {
    assert content != "";
  }

  /** Text that is not blank and that the loader accepts gets the structural
      check's verdict on the loaded tree. */
  lemma LoadedGoesToStructure(content: string, load: string -> LoadOutcome)
    requires !AllSpace(content) && load(content).Loaded?
    ensures ValidateYaml(content, load) == ValidateStructure(load(content).doc)
  {
    assert content != "";
  }

  /** Only the loader-failure branch reports a line. */
  lemma LineOnlyFromLoader(content: string, load: string -> LoadOutcome)
    ensures ValidateYaml(content, load).line.Some? ==>
      !AllSpace(content) && load(content).Threw? && load(content).markLine.Some?
  {
  }

  /** Every message of the service checks begins with "Service '" and the
      service's name. */
  lemma ServiceErrorNamesService(service: (string, Node))
    requires ServiceError(service).Some?
    ensures StartsWith(ServiceError(service).value, "Service '" + service.0 + "'")
  {
    var problem := ServiceErrorProblem(service);
    ServiceMessageNamesService(service.0, problem);
  }

  /** What a failing service entry's message says after its name. */
  function ServiceErrorProblem(service: (string, Node)): (problem: string)
    requires ServiceError(service).Some?
    ensures ServiceError(service).value == ServiceMessage(service.0, problem)
  {
    var config := service.1;
    if !IsObject(config) || config.Null? then " must be a mapping configuration"
    else if !Truthy(Get(config, "image")) && !Truthy(Get(config, "build")) then " must specify either 'image' or 'build'"
    else if Truthy(Get(config, "ports")) && !Get(config, "ports").Seq? then " ports must be a list"
    else " volumes must be a list or mapping"
  }

  /** The checks a service entry must pass, stated as one conjunction: its
      value is a non-null object (an array counts), `image` or `build` is
      truthy, truthy `ports` is an array, truthy `volumes` is an object. */
  lemma ServiceAcceptedIff(service: (string, Node))
    ensures ServiceError(service).None? <==>
      var config := service.1;
      && (config.Seq? || config.Map?)
      && (Truthy(Get(config, "image")) || Truthy(Get(config, "build")))
      && (!Truthy(Get(config, "ports")) || Get(config, "ports").Seq?)
      && (!Truthy(Get(config, "volumes")) || Get(config, "volumes").Seq? || Get(config, "volumes").Map?)
  {
  }

  /** An array given as a service's configuration passes the object test and
      then fails for want of `image` and `build`. */
  lemma ArrayServiceLacksImage(name: string, items: seq<Node>)
    ensures ServiceError((name, Seq(items))) == Some(ImageOrBuildError(name))
  {
  }

  /** Every message of the service checks begins with 'S', which no other
      structural message does. */
  lemma ServiceMessageHead(service: (string, Node))
    requires ServiceError(service).Some?
    ensures |ServiceError(service).value| > 0 && ServiceError(service).value[0] == 'S'
  {
  }

  /** Past the root and version checks, a message is the services message, a
      service message (beginning with 'S') or a whitelist message (beginning
      with 'U'). */
  lemma LaterMessageKinds(doc: Node)
    requires (doc.Seq? || doc.Map?) && !(Truthy(Get(doc, "version")) && !Get(doc, "version").Str?)
    ensures var r := ValidateStructure(doc);
      r.error.Some? ==> r.error.value == SERVICES_ERROR || (|r.error.value| > 0 && r.error.value[0] in {'S', 'U'})
  {
    var r := ValidateStructure(doc);
    if Truthy(Get(doc, "services")) && IsObject(Get(doc, "services")) && r.error.Some? {
      var services := Entries(Get(doc, "services"));
      var i :| FirstFailingService(services, i) && r.error == ServiceError(services[i]);
      ServiceMessageHead(services[i]);
    }
  }

  /** Which message the structural check can give: one of the three fixed
      ones, a service message (beginning with 'S') or a whitelist message
      (beginning with 'U'). */
  lemma StructureMessageKinds(doc: Node)
    ensures var r := ValidateStructure(doc);
      r.error.Some? ==>
        || r.error.value == ROOT_ERROR
        || r.error.value == VERSION_ERROR
        || r.error.value == SERVICES_ERROR
        || (|r.error.value| > 0 && r.error.value[0] in {'S', 'U'})
    ensures var r := ValidateStructure(doc);
      r.error.Some? ==>
        || r.error.value in {ROOT_ERROR, VERSION_ERROR, SERVICES_ERROR}
        || (exists name, problem :: r.error.value == ServiceMessage(name, problem))
        || (exists k :: r.error.value == UnknownKeyError(k))
  {
    var r := ValidateStructure(doc);
    if (doc.Seq? || doc.Map?) && !(Truthy(Get(doc, "version")) && !Get(doc, "version").Str?) {
      LaterMessageKinds(doc);
      if Truthy(Get(doc, "services")) {
        if IsObject(Get(doc, "services")) && r.error.Some? {
          var services := Entries(Get(doc, "services"));
          var i :| FirstFailingService(services, i) && r.error == ServiceError(services[i]);
          var problem := ServiceErrorProblem(services[i]);
          assert r.error.value == ServiceMessage(services[i].0, problem);
        }
      } else if r.error.Some? {
        var unknown := UnknownKeys(Keys(doc));
        assert r.error.value == UnknownKeyError(unknown[0]);
      }
    }
  }

  /** The root check: exactly the roots that are neither an array nor a
      mapping (null, `undefined` from a comment-only text, or a scalar) get the
      root message, and none of them gets a line. */
  lemma RootMustBeObject(doc: Node)
    ensures ValidateStructure(doc).error == Some(ROOT_ERROR) <==> !(doc.Seq? || doc.Map?)
  {
    var r := ValidateStructure(doc);
    FixedMessageHeads();
    if (doc.Seq? || doc.Map?) && !(Truthy(Get(doc, "version")) && !Get(doc, "version").Str?) {
      LaterMessageKinds(doc);
    }
  }

  /** A non-empty array root slips past the root check (arrays are objects)
      and fails the whitelist on its first index; an empty array is valid. */
  lemma ArrayRoot(items: seq<Node>)
    ensures items != [] ==> ValidateStructure(Seq(items)) == Invalid(UnknownKeyError("0"))
    ensures items == [] ==> ValidateStructure(Seq(items)) == VALID
  {
    if items != [] {
      var keys := Keys(Seq(items));
      assert keys[0] == "0";
      assert !KnownRootKey("0");
      assert UnknownKeys(keys)[0] == "0";
    }
  }

  /** `version` is rejected exactly when the root is a mapping whose `version`
      is truthy and not a string; a falsy `version` (null, false, 0, '') is
      never looked at. */
  lemma VersionRule(doc: Node)
    ensures ValidateStructure(doc).error == Some(VERSION_ERROR) <==>
      doc.Map? && Truthy(Get(doc, "version")) && !Get(doc, "version").Str?
  {
    var r := ValidateStructure(doc);
    FixedMessageHeads();
    if !(doc.Seq? || doc.Map?) {
      assert r.error == Some(ROOT_ERROR);
    } else if !(Truthy(Get(doc, "version")) && !Get(doc, "version").Str?) {
      LaterMessageKinds(doc);
    }
  }

  /** With a truthy object under `services` (an array included), the verdict
      is decided by the service entries alone, in iteration order: valid iff
      every entry passes, otherwise the first failing entry's message.  Other
      root keys are then never checked against the whitelist. */
  lemma ServicesRule(doc: Node)
    requires doc.Map? && !(Truthy(Get(doc, "version")) && !Get(doc, "version").Str?)
    requires Truthy(Get(doc, "services")) && IsObject(Get(doc, "services"))
    ensures var services := Entries(Get(doc, "services"));
      && (ValidateStructure(doc).isValid <==> forall i | 0 <= i < |services| :: ServiceError(services[i]).None?)
      && (!ValidateStructure(doc).isValid ==>
            exists i :: FirstFailingService(services, i) && ValidateStructure(doc).error == ServiceError(services[i]))
  {
  }

  /** A truthy `services` that is not an object (a string, a non-zero number,
      `true`) gets the services message once `version` has passed, whatever
      the rest of the root holds. */
  lemma ServicesNotObject(doc: Node)
    requires doc.Map? && !(Truthy(Get(doc, "version")) && !Get(doc, "version").Str?)
    requires Truthy(Get(doc, "services")) && !IsObject(Get(doc, "services"))
    ensures ValidateStructure(doc) == Invalid(SERVICES_ERROR)
  {
  }

  /** `services: {}` and `services: []` are truthy and hold no entry, so the
      document is valid once `version` has passed, whatever its other root
      keys are. */
  lemma EmptyServicesValid(doc: Node)
    requires doc.Map? && !(Truthy(Get(doc, "version")) && !Get(doc, "version").Str?)
    requires Get(doc, "services") == Map([]) || Get(doc, "services") == Seq([])
    ensures ValidateStructure(doc) == VALID
  {
  }

  /** With `services` falsy, a non-empty object root is valid iff every key
      passes the whitelist's prefix test, and otherwise the message names the
      first key that does not. */
  lemma WhitelistRule(doc: Node)
    requires doc.Map? || doc.Seq?
    requires !(Truthy(Get(doc, "version")) && !Get(doc, "version").Str?)
    requires !Truthy(Get(doc, "services"))
    ensures var keys := Keys(doc);
      && (ValidateStructure(doc).isValid <==> forall k | k in keys :: KnownRootKey(k))
      && (!ValidateStructure(doc).isValid ==>
            exists i | 0 <= i < |keys| ::
              && ValidateStructure(doc).error == Some(UnknownKeyError(keys[i]))
              && !KnownRootKey(keys[i])
              && forall j | 0 <= j < i :: KnownRootKey(keys[j]))
  {
    var unknown := UnknownKeys(Keys(doc));
    assert unknown != [] ==> unknown[0] in unknown;
  }

  /** The whitelist is a prefix test against seven entries: `versions`,
      `volumes_x` and `x-anything` pass, while `service` (a prefix of an entry,
      not an extension of one) and an array index do not. */
  lemma WhitelistIsPrefixTest()
    ensures KnownRootKey("versions") && KnownRootKey("volumes_x") && KnownRootKey("x-common")
    ensures !KnownRootKey("service") && !KnownRootKey("0") && !KnownRootKey("")
  {
    assert StartsWith("versions", VALID_ROOT_KEYS[0]);
    assert StartsWith("volumes_x", VALID_ROOT_KEYS[2]);
    assert StartsWith("x-common", VALID_ROOT_KEYS[6]);
    forall vk | vk in VALID_ROOT_KEYS
      ensures !StartsWith("service", vk) && !StartsWith("0", vk) && !StartsWith("", vk)
    {
      assert vk[0] != '0' && |vk| >= 2;
      if vk == "secrets" {
        assert vk[2] != "service"[2];
      }
    }
  }

  /** A formatter failure never destroys the text: when loading throws, the
      input comes back unchanged. */
  lemma FormatKeepsUnloadableText(content: string, load: string -> LoadOutcome, dump: Node -> Option<string>)
    requires load(content).Threw?
    ensures FormatYaml(content, load, dump) == content
  {
  }

  /** When loading succeeds, the result is the dump of the loaded tree, or the
      input itself if dumping throws. */
  lemma FormatIsDumpOfLoadedTree(content: string, load: string -> LoadOutcome, dump: Node -> Option<string>)
    requires load(content).Loaded?
    ensures dump(load(content).doc).Some? ==> FormatYaml(content, load, dump) == dump(load(content).doc).value
    ensures dump(load(content).doc).None? ==> FormatYaml(content, load, dump) == content
  {
  }

}
