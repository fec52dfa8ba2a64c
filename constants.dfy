/** The fixed data of the editor (`constants.ts`): the welcome document, the
    sidebar templates and the completion vocabularies. */
module Constants {

  import opened Types
  import opened Text

  /** `INITIAL_CONTENT`: the document the editor opens with. */
  const INITIAL_CONTENT: string :=
    "# Welcome to YAML Studio\n" +
    "# Start typing or select a template from the sidebar.\n" +
    "\n" +
    "version: '3.8'\n" +
    "services:\n" +
    "  app:\n" +
    "    image: node:18-alpine\n" +
    "    ports:\n" +
    "      - \"3000:3000\"\n"

  const BASIC_NODE: Template := Template(
    "basic-node", "Node.js Service", "A simple Node.js application container.",
    "version: '3.8'\n" +
    "services:\n" +
    "  web:\n" +
    "    image: node:18-alpine\n" +
    "    working_dir: /app\n" +
    "    volumes:\n" +
    "      - .:/app\n" +
    "    ports:\n" +
    "      - \"3000:3000\"\n" +
    "    command: npm start",
    Basic)

  const POSTGRES: Template := Template(
    "postgres", "PostgreSQL DB", "PostgreSQL database with environment variables.",
    "version: '3.8'\n" +
    "services:\n" +
    "  db:\n" +
    "    image: postgres:15\n" +
    "    environment:\n" +
    "      POSTGRES_USER: user\n" +
    "      POSTGRES_PASSWORD: password\n" +
    "      POSTGRES_DB: mydatabase\n" +
    "    volumes:\n" +
    "      - postgres_data:/var/lib/postgresql/data\n" +
    "    ports:\n" +
    "      - \"5432:5432\"\n" +
    "\n" +
    "volumes:\n" +
    "  postgres_data:",
    Database)

  const REDIS: Template := Template(
    "redis", "Redis Cache", "Redis service with persistent volume.",
    "version: '3.8'\n" +
    "services:\n" +
    "  redis:\n" +
    "    image: redis:alpine\n" +
    "    ports:\n" +
    "      - \"6379:6379\"\n" +
    "    volumes:\n" +
    "      - redis_data:/data\n" +
    "\n" +
    "volumes:\n" +
    "  redis_data:",
    Database)

  const FULL_STACK_MERN: Template := Template(
    "full-stack-mern", "MERN Stack", "Mongo, Express (Node), React, Node setup.",
    "version: '3.8'\n" +
    "services:\n" +
    "  client:\n" +
    "    image: node:18-alpine\n" +
    "    build: ./client\n" +
    "    ports:\n" +
    "      - \"3000:3000\"\n" +
    "    stdin_open: true\n" +
    "    tty: true\n" +
    "\n" +
    "  server:\n" +
    "    image: node:18-alpine\n" +
    "    build: ./server\n" +
    "    ports:\n" +
    "      - \"5000:5000\"\n" +
    "    environment:\n" +
    "      MONGO_URI: mongodb://mongo:27017/appdb\n" +
    "    depends_on:\n" +
    "      - mongo\n" +
    "\n" +
    "  mongo:\n" +
    "    image: mongo:latest\n" +
    "    ports:\n" +
    "      - \"27017:27017\"\n" +
    "    volumes:\n" +
    "      - mongo_data:/data/db\n" +
    "\n" +
    "volumes:\n" +
    "  mongo_data:",
    FullStack)

  const NGINX_PROXY: Template := Template(
    "nginx-proxy", "Nginx Reverse Proxy", "Nginx configured as a reverse proxy.",
    "version: '3.8'\n" +
    "services:\n" +
    "  proxy:\n" +
    "    image: nginx:alpine\n" +
    "    ports:\n" +
    "      - \"80:80\"\n" +
    "    volumes:\n" +
    "      - ./nginx.conf:/etc/nginx/nginx.conf:ro\n" +
    "    depends_on:\n" +
    "      - app\n" +
    "\n" +
    "  app:\n" +
    "    image: my-app:latest",
    Basic)

  const WORDPRESS: Template := Template(
    "wordpress", "WordPress", "WordPress with MySQL database.",
    "version: '3.8'\n" +
    "services:\n" +
    "  wordpress:\n" +
    "    image: wordpress:latest\n" +
    "    ports:\n" +
    "      - \"8000:80\"\n" +
    "    environment:\n" +
    "      WORDPRESS_DB_HOST: db\n" +
    "      WORDPRESS_DB_USER: exampleuser\n" +
    "      WORDPRESS_DB_PASSWORD: examplepass\n" +
    "      WORDPRESS_DB_NAME: exampledb\n" +
    "    volumes:\n" +
    "      - wordpress_data:/var/www/html\n" +
    "    depends_on:\n" +
    "      - db\n" +
    "\n" +
    "  db:\n" +
    "    image: mysql:5.7\n" +
    "    environment:\n" +
    "      MYSQL_DATABASE: exampledb\n" +
    "      MYSQL_USER: exampleuser\n" +
    "      MYSQL_PASSWORD: examplepass\n" +
    "      MYSQL_RANDOM_ROOT_PASSWORD: '1'\n" +
    "    volumes:\n" +
    "      - db_data:/var/lib/mysql\n" +
    "\n" +
    "volumes:\n" +
    "  wordpress_data:\n" +
    "  db_data:",
    FullStack)

  /** `TEMPLATES`, in sidebar order. */
  const TEMPLATES: seq<Template> := [BASIC_NODE, POSTGRES, REDIS, FULL_STACK_MERN, NGINX_PROXY, WORDPRESS]

  /** `DOCKER_ROOT_KEYS`: the root-key completion vocabulary. */
  const DOCKER_ROOT_KEYS: seq<string> := ["version", "services", "volumes", "networks", "secrets", "configs"]

  /** `DOCKER_SERVICE_KEYS`: the service-key completion vocabulary. */
  const DOCKER_SERVICE_KEYS: seq<string> := [
    "image", "build", "ports", "volumes", "environment", "env_file",
    "depends_on", "restart", "command", "entrypoint", "networks",
    "container_name", "hostname", "healthcheck", "deploy", "logging",
    "stdin_open", "tty", "working_dir", "user"
  ]

  /** `COMMON_IMAGES`: the image-tag completion vocabulary. */
  const COMMON_IMAGES: seq<string> := [
    "node:18-alpine", "node:20-alpine", "node:latest",
    "postgres:15", "postgres:14", "postgres:alpine",
    "redis:alpine", "redis:latest",
    "mongo:latest", "mongo:6",
    "nginx:alpine", "nginx:latest",
    "mysql:8", "mysql:5.7",
    "wordpress:latest", "wordpress:php8.2",
    "python:3.11-alpine", "python:3.10-slim",
    "traefik:v2.10", "rabbitmq:3-management"
  ]

  predicate Distinct(xs: seq<string>) {
    forall i, j | 0 <= i < j < |xs| :: xs[i] != xs[j]
  }

  /** Six distinct root keys, `version` first and `services` second. */
  lemma RootKeysShape()
    ensures |DOCKER_ROOT_KEYS| == 6 && Distinct(DOCKER_ROOT_KEYS)
    ensures DOCKER_ROOT_KEYS[0] == "version" && DOCKER_ROOT_KEYS[1] == "services"
  {
  }

  /** Twenty distinct service keys, `image` first and `build` second. */
  lemma ServiceKeysShape()
    ensures |DOCKER_SERVICE_KEYS| == 20 && Distinct(DOCKER_SERVICE_KEYS)
    ensures DOCKER_SERVICE_KEYS[0] == "image" && DOCKER_SERVICE_KEYS[1] == "build"
  {
  }

  /** Twenty distinct image tags. */
  lemma CommonImagesShape()
    ensures |COMMON_IMAGES| == 20 && Distinct(COMMON_IMAGES)
  {
  }

  /** Every image tag ends in a letter or a digit (so neither in a colon nor
      in whitespace). */
  lemma CommonImagesEndInWordChar()
    ensures forall img | img in COMMON_IMAGES :: |img| > 0 && IsWordChar(img[|img| - 1])
  {
  }

  lemma CommonImageEndsInWordChar(image: string)
    requires image in COMMON_IMAGES
    ensures |image| > 0 && IsWordChar(image[|image| - 1])
  {
    CommonImagesEndInWordChar();
  }

  /** Template ids are pairwise distinct (the sidebar keys its entries by id). */
  lemma TemplateIdsDistinct()
    ensures |TEMPLATES| == 6
    ensures forall i, j | 0 <= i < j < |TEMPLATES| :: TEMPLATES[i].id != TEMPLATES[j].id
  {
    var ids := [BASIC_NODE.id, POSTGRES.id, REDIS.id, FULL_STACK_MERN.id, NGINX_PROXY.id, WORDPRESS.id];
    assert ids == ["basic-node", "postgres", "redis", "full-stack-mern", "nginx-proxy", "wordpress"];
    assert Distinct(ids);
    assert forall i | 0 <= i < |TEMPLATES| :: TEMPLATES[i].id == ids[i];
  }

}
