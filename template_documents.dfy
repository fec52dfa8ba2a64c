/** The trees js-yaml builds from the sidebar templates and the welcome
    document, written out by hand (the loader itself is not modelled), and
    the structural verdict on each. */
module TemplateDocuments {

  import opened YamlService
  import opened Types
  import Constants

  function Ports(p: string): (string, Node) {
    ("ports", Seq([Str(p)]))
  }

  function Volumes(v: string): (string, Node) {
    ("volumes", Seq([Str(v)]))
  }

  const VERSION_3_8: (string, Node) := ("version", Str("3.8"))

  /** `INITIAL_CONTENT`; its comment lines leave no trace in the tree. */
  const INITIAL_TREE: Node := Map([
    VERSION_3_8,
    ("services", Map([
      ("app", Map([("image", Str("node:18-alpine")), Ports("3000:3000")]))]))])

  const BASIC_NODE_TREE: Node := Map([
    VERSION_3_8,
    ("services", Map([
      ("web", Map([
        ("image", Str("node:18-alpine")),
        ("working_dir", Str("/app")),
        Volumes(".:/app"),
        Ports("3000:3000"),
        ("command", Str("npm start"))]))]))])

  const POSTGRES_TREE: Node := Map([
    VERSION_3_8,
    ("services", Map([
      ("db", Map([
        ("image", Str("postgres:15")),
        ("environment", Map([
          ("POSTGRES_USER", Str("user")),
          ("POSTGRES_PASSWORD", Str("password")),
          ("POSTGRES_DB", Str("mydatabase"))])),
        Volumes("postgres_data:/var/lib/postgresql/data"),
        Ports("5432:5432")]))])),
    ("volumes", Map([("postgres_data", Null)]))])

  const REDIS_TREE: Node := Map([
    VERSION_3_8,
    ("services", Map([
      ("redis", Map([
        ("image", Str("redis:alpine")),
        Ports("6379:6379"),
        Volumes("redis_data:/data")]))])),
    ("volumes", Map([("redis_data", Null)]))])

  const FULL_STACK_MERN_TREE: Node := Map([
    VERSION_3_8,
    ("services", Map([
      ("client", Map([
        ("image", Str("node:18-alpine")),
        ("build", Str("./client")),
        Ports("3000:3000"),
        ("stdin_open", Bool(true)),
        ("tty", Bool(true))])),
      ("server", Map([
        ("image", Str("node:18-alpine")),
        ("build", Str("./server")),
        Ports("5000:5000"),
        ("environment", Map([("MONGO_URI", Str("mongodb://mongo:27017/appdb"))])),
        ("depends_on", Seq([Str("mongo")]))])),
      ("mongo", Map([
        ("image", Str("mongo:latest")),
        Ports("27017:27017"),
        Volumes("mongo_data:/data/db")]))])),
    ("volumes", Map([("mongo_data", Null)]))])

  const NGINX_PROXY_TREE: Node := Map([
    VERSION_3_8,
    ("services", Map([
      ("proxy", Map([
        ("image", Str("nginx:alpine")),
        Ports("80:80"),
        Volumes("./nginx.conf:/etc/nginx/nginx.conf:ro"),
        ("depends_on", Seq([Str("app")]))])),
      ("app", Map([("image", Str("my-app:latest"))]))]))])

  const WORDPRESS_TREE: Node := Map([
    VERSION_3_8,
    ("services", Map([
      ("wordpress", Map([
        ("image", Str("wordpress:latest")),
        Ports("8000:80"),
        ("environment", Map([
          ("WORDPRESS_DB_HOST", Str("db")),
          ("WORDPRESS_DB_USER", Str("exampleuser")),
          ("WORDPRESS_DB_PASSWORD", Str("examplepass")),
          ("WORDPRESS_DB_NAME", Str("exampledb"))])),
        Volumes("wordpress_data:/var/www/html"),
        ("depends_on", Seq([Str("db")]))])),
      ("db", Map([
        ("image", Str("mysql:5.7")),
        ("environment", Map([
          ("MYSQL_DATABASE", Str("exampledb")),
          ("MYSQL_USER", Str("exampleuser")),
          ("MYSQL_PASSWORD", Str("examplepass")),
          ("MYSQL_RANDOM_ROOT_PASSWORD", Str("1"))])),
        Volumes("db_data:/var/lib/mysql")]))])),
    ("volumes", Map([("wordpress_data", Null), ("db_data", Null)]))])

  /** The trees of `TEMPLATES`, in the same order. */
  const TEMPLATE_TREES: seq<Node> := [
    BASIC_NODE_TREE, POSTGRES_TREE, REDIS_TREE, FULL_STACK_MERN_TREE, NGINX_PROXY_TREE, WORDPRESS_TREE]

  /** A service block whose first key is a non-empty `image` and whose
      `ports` and `volumes`, where present, are lists. */
  predicate PlainService(config: Node) {
    && config.Map? && |config.entries| > 0
    && config.entries[0].0 == "image" && config.entries[0].1.Str? && config.entries[0].1.s != ""
    && forall i | 0 <= i < |config.entries| ::
         (config.entries[i].0 == "ports" || config.entries[i].0 == "volumes") ==> config.entries[i].1.Seq?
  }

  /** A document that opens with `version: '3.8'` and a mapping of plain
      services. */
  predicate PlainCompose(doc: Node) {
    && doc.Map? && |doc.entries| >= 2
    && doc.entries[0] == VERSION_3_8
    && doc.entries[1].0 == "services" && doc.entries[1].1.Map?
    && forall i | 0 <= i < |doc.entries[1].1.entries| :: PlainService(doc.entries[1].1.entries[i].1)
  }

  /** A key bound only to lists, or not at all, reads as a list or as
      `undefined`. */
  lemma {:induction false} LookupListOrAbsent(entries: seq<(string, Node)>, key: string)
    requires forall i | 0 <= i < |entries| :: entries[i].0 == key ==> entries[i].1.Seq?
    ensures Lookup(entries, key).Seq? || Lookup(entries, key) == Undefined
  {
    if entries != [] && entries[0].0 != key {
      LookupListOrAbsent(entries[1..], key);
    }
  }

  /** A plain service passes all four service checks. */
  lemma PlainServicePasses(name: string, config: Node)
    requires PlainService(config)
    ensures ServiceError((name, config)).None?
  {
    LookupListOrAbsent(config.entries, "ports");
    LookupListOrAbsent(config.entries, "volumes");
  }

  /** A document of plain services is valid, whatever else it declares at
      its root. */
  lemma PlainComposeIsValid(doc: Node)
    requires PlainCompose(doc)
    ensures ValidateStructure(doc) == VALID
  {
    var services := doc.entries[1].1;
    assert Get(doc, "version") == Str("3.8");
    assert doc.entries[0].0 == "version";
    assert "version" != "services" by { assert "version"[0] != "services"[0]; }
    assert Lookup(doc.entries, "services") == Lookup(doc.entries[1..], "services");
    assert Get(doc, "services") == services;
    forall i | 0 <= i < |services.entries| ensures ServiceError(services.entries[i]).None? {
      PlainServicePasses(services.entries[i].0, services.entries[i].1);
    }
    ServicesRule(doc);
  }

  lemma InitialIsPlain()
    ensures PlainCompose(INITIAL_TREE)
  {
  }

  lemma BasicNodeIsPlain()
    ensures PlainCompose(BASIC_NODE_TREE)
  {
  }

  lemma PostgresIsPlain()
    ensures PlainCompose(POSTGRES_TREE)
  {
  }

  lemma RedisIsPlain()
    ensures PlainCompose(REDIS_TREE)
  {
  }

  lemma FullStackMernIsPlain()
    ensures PlainCompose(FULL_STACK_MERN_TREE)
  {
  }

  lemma NginxProxyIsPlain()
    ensures PlainCompose(NGINX_PROXY_TREE)
  {
  }

  lemma WordpressIsPlain()
    ensures PlainCompose(WORDPRESS_TREE)
  {
  }

  /** The welcome document and every template are documents of plain
      services: every service names an image first, and lists its ports and
      volumes. */
  lemma TemplatesArePlain()
    ensures |TEMPLATE_TREES| == |Constants.TEMPLATES|
    ensures PlainCompose(INITIAL_TREE)
    ensures forall t | t in TEMPLATE_TREES :: PlainCompose(t)
  {
    InitialIsPlain();
    BasicNodeIsPlain();
    PostgresIsPlain();
    RedisIsPlain();
    FullStackMernIsPlain();
    NginxProxyIsPlain();
    WordpressIsPlain();
  }

  /** The welcome document and every template pass the structural check. */
  lemma TemplatesAreValid()
    ensures ValidateStructure(INITIAL_TREE) == VALID
    ensures forall t | t in TEMPLATE_TREES :: ValidateStructure(t) == VALID
  {
    TemplatesArePlain();
    PlainComposeIsValid(INITIAL_TREE);
    forall t | t in TEMPLATE_TREES ensures ValidateStructure(t) == VALID {
      PlainComposeIsValid(t);
    }
  }

}
