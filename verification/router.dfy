/** The request handlers of `app/router.js`: which remote products a user
    may proxy to, the session gate, the bind handler with its ordered
    checks and its effects, and the owner-scoped list and remove handlers.
    The remote product list is an input; the store, the files and nginx
    are the `Datastore` and `Machine` objects. */
module Router {
  import opened Js
  import opened Strings
  import opened Domain
  import opened Host
  import opened Store
  import Nginxer

  /** `PROXY_IP_FILTER`, `AdminId` and the nginx locations. */
  datatype Settings = Settings(adminId: string, proxyIpFilter: seq<string>, nginx: Nginxer.Config)

  // ---------------------------------------------------------------------
  // Products

  /** A product as the remote account API reports it. */
  datatype Product = Product(name: string, domain: string, dedicatedip: string, servername: string, status: string)

  /** A product as `getUserProducts` returns it. */
  datatype Server = Server(name: string, domain: string, ip: string, servername: string)

  /** Some `PROXY_IP_FILTER` entry occurs in `ip`. */
  predicate InFilter(ip: string, filters: seq<string>) {
    exists k :: 0 <= k < |filters| && Contains(ip, filters[k])
  }

  /** `checkProxyIpProducts(ip)`: scans the filter entries and returns at
      the first one found in `ip`. */
  method CheckProxyIpProducts(ip: string, filters: seq<string>) returns (b: bool)
    ensures b <==> InFilter(ip, filters)
  {
    for i := 0 to |filters|
      invariant forall k :: 0 <= k < i ==> !Contains(ip, filters[k])
    {
      if -1 != IndexOf(ip, filters[i]) {
        return true;
      }
    }
    return false;
  }

  predicate Eligible(p: Product, filters: seq<string>) {
    p.status == "Active" && InFilter(p.dedicatedip, filters)
  }

  function Project(p: Product): Server {
    Server(p.name, p.domain, p.dedicatedip, p.servername)
  }

  /** The servers `getUserProducts` keeps: the eligible products, in the
      order the API listed them, each projected. */
  function UserServers(products: seq<Product>, filters: seq<string>): seq<Server> {
    if products == [] then []
    else
      var init, last := products[..|products| - 1], products[|products| - 1];
      UserServers(init, filters) + if Eligible(last, filters) then [Project(last)] else []
  }

  /** The filtering part of `getUserProducts`: builds the server list by
      pushing each eligible product's projection. */
  method GetUserProducts(products: seq<Product>, filters: seq<string>) returns (servers: seq<Server>)
    ensures servers == UserServers(products, filters)
  {
    servers := [];
    for i := 0 to |products|
      invariant servers == UserServers(products[..i], filters)
    {
      var item := products[i];
      assert products[..i + 1][..i] == products[..i];
      var ok := CheckProxyIpProducts(item.dedicatedip, filters);
      if item.status == "Active" && ok {
        servers := servers + [Server(item.name, item.domain, item.dedicatedip, item.servername)];
      }
    }
    assert products[..|products|] == products;
  }

  /** A server is returned exactly when it is the projection of an active
      product whose IP holds a filter entry; there are never more servers
      than products. */
  lemma {:induction false} UserServersMembers(products: seq<Product>, filters: seq<string>)
    ensures |UserServers(products, filters)| <= |products|
    ensures forall s :: s in UserServers(products, filters) <==>
              exists k :: 0 <= k < |products| && Eligible(products[k], filters) && Project(products[k]) == s
    decreases |products|
  {
    if products != [] {
      var init := products[..|products| - 1];
      UserServersMembers(init, filters);
      assert forall k :: 0 <= k < |init| ==> init[k] == products[k];
    }
  }

  // ---------------------------------------------------------------------
  // Session gate

  class SessionUser {
    const id: string
    /** An absent `isAdmin` reads as false. */
    var isAdmin: bool
    var typeName: string

    constructor (id: string, isAdmin: bool, typeName: string)
      ensures this.id == id && this.isAdmin == isAdmin && this.typeName == typeName
    {
      this.id, this.isAdmin, this.typeName := id, isAdmin, typeName;
    }
  }

  class Session {
    var user: SessionUser?
  }

  /** What the gate does with a request: redirect it, or pass it on to the
      handler (`next`) with `ctx.user` set. */
  datatype Gate = RedirectTo(location: string) | Next(user: SessionUser)

  const AdminTypeName := "管理员"
  const UserTypeName := "普通用户"

  /** `authorize`: without a session user, redirect to the login page and
      do not call the handler; otherwise tag the user (the admin id gets
      `isAdmin`, anyone else keeps theirs) and call the handler. */
  method Authorize(sess: Session, adminId: string) returns (g: Gate)
    modifies sess.user
    ensures sess.user == old(sess.user)
    ensures old(sess.user) == null ==> g == RedirectTo("/login.html")
    ensures old(sess.user) != null ==>
              var u := sess.user;
              && g == Next(u)
              && u.isAdmin == (if u.id == adminId then true else old(u.isAdmin))
              && u.typeName == (if u.id == adminId then AdminTypeName else UserTypeName)
  {
    var user := sess.user;
    if user == null {
      return RedirectTo("/login.html");
    }
    if user.id == adminId {
      user.isAdmin := true;
      user.typeName := AdminTypeName;
    } else {
      user.typeName := UserTypeName;
    }
    g := Next(user);
  }

  // ---------------------------------------------------------------------
  // Bind

  /** The bind form's fields, which the handler trims in place. */
  class BindForm {
    var protocol: string
    var domain: string
    var proxyIp: string
    var proxyPort: string

    constructor (protocol: string, domain: string, proxyIp: string, proxyPort: string)
      ensures Params() == Nginxer.BindParams(protocol, domain, proxyIp, proxyPort)
    {
      this.protocol, this.domain, this.proxyIp, this.proxyPort := protocol, domain, proxyIp, proxyPort;
    }

    function Params(): Nginxer.BindParams
      reads this
    {
      Nginxer.BindParams(protocol, domain, proxyIp, proxyPort)
    }
  }

  /** The form fields as the checks see them: `domain`, `proxyIp` and
      `proxyPort` trimmed, `protocol` as sent. */
  function Trimmed(p: Nginxer.BindParams): Nginxer.BindParams {
    p.(domain := Trim(p.domain), proxyIp := Trim(p.proxyIp), proxyPort := Trim(p.proxyPort))
  }

  datatype BindError = EmptyField | BadDomain | BadProtocol | UnknownProduct | Duplicate {
    /** The message rendered on the error page. */
    function Message(): string {
      match this
      case EmptyField => "请检查绑定参数"
      case BadDomain => "域名格式错误"
      case BadProtocol => "协议选择错误"
      case UnknownProduct => "您选择的产品不存在"
      case Duplicate => "存在重复的域名+协议规则"
    }
  }

  predicate SomeFieldEmpty(p: Nginxer.BindParams) {
    p.protocol == "" || p.domain == "" || p.proxyIp == "" || p.proxyPort == ""
  }

  predicate KnownProtocol(protocol: string) {
    protocol == "http" || protocol == "https"
  }

  /** `servers.filter(it => it.ip === ip)` */
  function WithIp(servers: seq<Server>, ip: string): (r: seq<Server>)
    ensures r == [] <==> forall k :: 0 <= k < |servers| ==> servers[k].ip != ip
    ensures forall s :: s in r <==> s in servers && s.ip == ip
  {
    if servers == [] then []
    else (if servers[0].ip == ip then [servers[0]] else []) + WithIp(servers[1..], ip)
  }

  function PairQuery(domain: string, protocol: string): Query {
    Query(None, None, Some(domain), Some(protocol))
  }

  /** The bind handler's checks, in its order: empty fields, domain syntax,
      protocol, product ownership (skipped for admins), duplicate
      (domain, protocol). Each rejection is reported only when every
      earlier check passed. */
  function CheckBind(p: Nginxer.BindParams, isAdmin: bool, servers: seq<Server>, records: seq<Record>)
    : (r: Option<BindError>)
    ensures r == Some(EmptyField) <==> SomeFieldEmpty(p)
    ensures r == Some(BadDomain) <==> !SomeFieldEmpty(p) && !DomainPatternTest(p.domain)
    ensures r == Some(BadProtocol) <==>
              !SomeFieldEmpty(p) && DomainPatternTest(p.domain) && !KnownProtocol(p.protocol)
    ensures r == Some(UnknownProduct) <==>
              && !SomeFieldEmpty(p) && DomainPatternTest(p.domain) && KnownProtocol(p.protocol)
              && !isAdmin && forall k :: 0 <= k < |servers| ==> servers[k].ip != p.proxyIp
    ensures r == Some(Duplicate) <==>
              && !SomeFieldEmpty(p) && DomainPatternTest(p.domain) && KnownProtocol(p.protocol)
              && (isAdmin || exists k :: 0 <= k < |servers| && servers[k].ip == p.proxyIp)
              && exists k :: 0 <= k < |records| && records[k].domain == p.domain && records[k].protocol == p.protocol
  {
    if SomeFieldEmpty(p) then Some(EmptyField)
    else if !DomainPatternTest(p.domain) then Some(BadDomain)
    else if !KnownProtocol(p.protocol) then Some(BadProtocol)
    else if !isAdmin && |WithIp(servers, p.proxyIp)| == 0 then Some(UnknownProduct)
    else if FirstMatch(records, PairQuery(p.domain, p.protocol)).Some? then Some(Duplicate)
    else None
  }

  /** The state the handlers act on: the files, how often nginx reloaded,
      and the stored records. */
  datatype World = World(files: Files, reloads: nat, records: seq<Record>)

  /** What a handler renders: a redirect, or the error page with its
      message (`None` when the message is `undefined`). */
  datatype Page = Redirect(location: string) | ErrorPage(msg: Option<string>)

  /** The stored record: `update`'s result spread, then `protocol` and the
      current user's id, under the `_id` the store gives it. */
  function RecordOf(id: string, res: Nginxer.UpdateResult, userId: string): Record {
    Record(id, res.params.domain, res.params.protocol, res.params.proxyIp, res.params.proxyPort,
           res.name, res.confFile, res.certs, userId)
  }

  function IdQuery(id: string): Query {
    Query(Some(id), None, None, None)
  }

  /** What the bind handler renders and leaves behind once every check
      passed: copy the template, fill it, reload nginx, store the record.
      `newId` is the `_id` the store draws for the record. */
  function EffectsOutcome(w: World, cfg: Nginxer.Config, p: Nginxer.BindParams, uploads: Nginxer.Uploads,
                          userId: string, newId: string): (Page, World)
  {
    var tpl, newFile := Nginxer.TemplateFor(cfg, p.protocol), Nginxer.ConfFilePath(cfg, p.domain, p.protocol);
    if tpl !in w.files then (ErrorPage(MessageOf(NoSuchFile("lstat", tpl))), w)
    else
      var u := Nginxer.UpdateOutcome(w.files[newFile := w.files[tpl]], cfg, newFile, uploads, p);
      if u.result.Err? then (ErrorPage(MessageOf(u.result.error)), w.(files := u.files))
      else if FirstMatch(w.records, IdQuery(newId)).Some? then
        (ErrorPage(MessageOf(UniqueViolation(newId))), World(u.files, w.reloads + 1, w.records))
      else (Redirect("/"), World(u.files, w.reloads + 1, w.records + [RecordOf(newId, u.result.value, userId)]))
  }

  /** What the bind handler renders and leaves behind, for already trimmed
      fields `p`: the first failed check's error page and no change, or
      the effects. */
  function BindOutcome(w: World, settings: Settings, p: Nginxer.BindParams, uploads: Nginxer.Uploads,
                       userId: string, isAdmin: bool, products: seq<Product>, newId: string): (Page, World)
  {
    var rejection := CheckBind(p, isAdmin, UserServers(products, settings.proxyIpFilter), w.records);
    if rejection.Some? then (ErrorPage(Some(rejection.value.Message())), w)
    else EffectsOutcome(w, settings.nginx, p, uploads, userId, newId)
  }

  /** The checks of the bind handler, run in its order; the product list
      is only fetched for a non-admin whose earlier checks passed. */
  method ValidateBind(p: Nginxer.BindParams, user: SessionUser, products: seq<Product>,
                      settings: Settings, store: Datastore) returns (rejection: Option<BindError>)
    ensures rejection == CheckBind(p, user.isAdmin, UserServers(products, settings.proxyIpFilter), store.records)
  {
    if p.protocol == "" || p.domain == "" || p.proxyIp == "" || p.proxyPort == "" {
      return Some(EmptyField);
    }
    if !DomainPatternTest(p.domain) {
      return Some(BadDomain);
    }
    if p.protocol != "http" && p.protocol != "https" {
      return Some(BadProtocol);
    }
    if !user.isAdmin {
      var servers := GetUserProducts(products, settings.proxyIpFilter);
      var serv := WithIp(servers, p.proxyIp);
      if |serv| == 0 {
        return Some(UnknownProduct);
      }
    }
    var ext := store.FindOne(PairQuery(p.domain, p.protocol));
    if ext.Some? {
      return Some(Duplicate);
    }
    return None;
  }

  /** The side effects of a bind whose checks passed, stopping at the
      first rejected step. */
  method ApplyBind(p: Nginxer.BindParams, uploads: Nginxer.Uploads, userId: string, cfg: Nginxer.Config,
                   store: Datastore, m: Machine, newId: string) returns (page: Page)
    modifies store, m
    ensures (page, World(m.files, m.reloads, store.records))
            == EffectsOutcome(old(World(m.files, m.reloads, store.records)), cfg, p, uploads, userId, newId)
  {
    var newFile := Nginxer.CopyNew(m, cfg, p.domain, p.protocol);
    if newFile.Err? {
      return ErrorPage(MessageOf(newFile.error));
    }
    var res := Nginxer.Update(m, cfg, newFile.value, uploads, p);
    if res.Err? {
      return ErrorPage(MessageOf(res.error));
    }
    Nginxer.Reload(m);
    var inserted := store.Insert(RecordOf(newId, res.value, userId));
    if inserted.Err? {
      return ErrorPage(MessageOf(inserted.error));
    }
    page := Redirect("/");
  }

  /** `POST /domain/bind`: trims the form in place, runs the checks in
      order, then copies the template, fills it, reloads nginx and stores
      the record, stopping at the first failure. */
  method Bind(form: BindForm, uploads: Nginxer.Uploads, user: SessionUser, products: seq<Product>,
              settings: Settings, store: Datastore, m: Machine, newId: string) returns (page: Page)
    modifies form, store, m
    ensures form.Params() == Trimmed(old(form.Params()))
    ensures (page, World(m.files, m.reloads, store.records))
            == BindOutcome(old(World(m.files, m.reloads, store.records)), settings, form.Params(), uploads,
                           user.id, user.isAdmin, products, newId)
  {
    ghost var w := World(m.files, m.reloads, store.records);
    form.domain := Trim(form.domain);
    form.proxyIp := Trim(form.proxyIp);
    form.proxyPort := Trim(form.proxyPort);
    var params := form.Params();
    var rejection := ValidateBind(params, user, products, settings, store);
    ghost var outcome := BindOutcome(w, settings, params, uploads, user.id, user.isAdmin, products, newId);
    if rejection.Some? {
      page := ErrorPage(Some(rejection.value.Message()));
      assert outcome == (page, w);
      return;
    }
    assert outcome == EffectsOutcome(w, settings.nginx, params, uploads, user.id, newId);
    page := ApplyBind(params, uploads, user.id, settings.nginx, store, m, newId);
  }

  // ---------------------------------------------------------------------
  // List and remove

  /** The query a user's list and remove requests are scoped by: nothing
      for an admin, the owner otherwise. */
  function OwnerScope(userId: string, isAdmin: bool): Option<string> {
    if isAdmin then None else Some(userId)
  }

  /** `GET /domain/lists`: an admin sees every record, anyone else only
      the records they own. */
  method Lists(store: Datastore, user: SessionUser) returns (body: seq<Record>)
    ensures forall r :: r in body <==> r in store.records && (user.isAdmin || r.userId == user.id)
    ensures |body| <= |store.records|
    ensures forall r :: multiset(body)[r] ==
              if user.isAdmin || r.userId == user.id then multiset(store.records)[r] else 0
  {
    if user.isAdmin {
      body := store.Find(Everything);
    } else {
      body := store.Find(Query(None, Some(user.id), None, None));
    }
  }

  /** The reply of `DELETE /domain/remove/:id`. */
  datatype Reply = Reply(message: string, code: int)

  /** The message of the `TypeError` raised by reading `name` from the
      `null` a failed lookup returns. */
  const NullLookupText := "Cannot read properties of null (reading 'name')"

  /** What the remove handler replies and leaves behind. */
  function UnbindOutcome(w: World, cfg: Nginxer.Config, id: string, userId: string, isAdmin: bool): (Reply, World) {
    var found := FirstMatch(w.records, Query(Some(id), OwnerScope(userId, isAdmin), None, None));
    if found.None? then (Reply(NullLookupText, 104), w)
    else (Reply("success", 100),
          World(Nginxer.RemoveOutcome(w.files, cfg, found.value.name), w.reloads, RemoveFirst(w.records, IdQuery(id))))
  }

  /** `DELETE /domain/remove/:id`: looks the record up (owner-scoped for a
      non-admin), deletes its files, then the record. */
  method RemoveBinding(store: Datastore, m: Machine, settings: Settings, id: string, user: SessionUser)
    returns (reply: Reply)
    modifies store, m
    ensures (reply, World(m.files, m.reloads, store.records))
            == UnbindOutcome(old(World(m.files, m.reloads, store.records)), settings.nginx, id, user.id, user.isAdmin)
  {
    var bind := store.FindOne(Query(Some(id), OwnerScope(user.id, user.isAdmin), None, None));
    if bind.None? {
      return Reply(NullLookupText, 104);
    }
    var _ := Nginxer.Remove(m, settings.nginx, bind.value.name, bind.value.protocol);
    var _ := store.Remove(IdQuery(id));
    reply := Reply("success", 100);
  }

  // ---------------------------------------------------------------------
  // Properties

  /** No two records bind the same (domain, protocol) pair. */
  predicate UniquePairs(records: seq<Record>) {
    forall i, j :: 0 <= i < j < |records| ==>
      records[i].domain != records[j].domain || records[i].protocol != records[j].protocol
  }

  /** Every check passed and every effect went through: the template
      exists and parses, an https binding came with both certificate
      files, and the store's `_id` is free. */
  predicate BindSucceeds(w: World, settings: Settings, p: Nginxer.BindParams, uploads: Nginxer.Uploads,
                         isAdmin: bool, products: seq<Product>, newId: string)
  {
    var tpl := Nginxer.TemplateFor(settings.nginx, p.protocol);
    && CheckBind(p, isAdmin, UserServers(products, settings.proxyIpFilter), w.records).None?
    && tpl in w.files && w.files[tpl].Conf?
    && (p.protocol == "http" || (uploads.pem.Some? && uploads.key.Some?))
    && FirstMatch(w.records, IdQuery(newId)).None?
  }

  /** The record a successful bind stores. */
  function BoundRecord(cfg: Nginxer.Config, p: Nginxer.BindParams, userId: string, newId: string): Record {
    var name := Nginxer.UpstreamName(p.domain, p.protocol);
    RecordOf(newId, Nginxer.UpdateResult(p, name, Nginxer.ConfFilePath(cfg, p.domain, p.protocol),
                                         if p.protocol == "http" then None
                                         else Some(Nginxer.CertPaths(Nginxer.CertPemPath(cfg, name),
                                                                     Nginxer.CertKeyPath(cfg, name)))), userId)
  }

  /** The bind handler redirects exactly when every check and every effect
      succeeded; it then has reloaded nginx once, written the filled
      configuration file and appended the binding's record. Whenever it
      renders an error page the records are as they were. */
  lemma BindRedirectsExactlyWhenSucceeds(w: World, settings: Settings, p: Nginxer.BindParams,
                                          uploads: Nginxer.Uploads, userId: string, isAdmin: bool,
                                          products: seq<Product>, newId: string)
    ensures var o := BindOutcome(w, settings, p, uploads, userId, isAdmin, products, newId);
            && (o.0 == Redirect("/") <==> BindSucceeds(w, settings, p, uploads, isAdmin, products, newId))
            && (o.0 != Redirect("/") ==> o.1.records == w.records)
    ensures BindSucceeds(w, settings, p, uploads, isAdmin, products, newId) ==>
              var cfg := settings.nginx;
              var o := BindOutcome(w, settings, p, uploads, userId, isAdmin, products, newId);
              var file, tpl := Nginxer.ConfFilePath(cfg, p.domain, p.protocol), Nginxer.TemplateFor(cfg, p.protocol);
              && o.1.reloads == w.reloads + 1
              && o.1.records == w.records + [BoundRecord(cfg, p, userId, newId)]
              && file in o.1.files
              && o.1.files[file] == Conf(Nginxer.Filled(w.files[tpl].directives, cfg, p))
  {
  }

  /** A successful https bind moves the two uploaded files to the
      binding's certificate paths: afterwards those paths hold what was
      uploaded and the uploads are gone, provided the uploads, the new
      configuration file and the certificate paths are different files. */
  lemma BindPlacesCertificates(w: World, settings: Settings, p: Nginxer.BindParams, uploads: Nginxer.Uploads,
                               userId: string, isAdmin: bool, products: seq<Product>, newId: string)
    requires BindSucceeds(w, settings, p, uploads, isAdmin, products, newId) && p.protocol == "https"
    requires uploads.pem.Some? && uploads.key.Some?
    requires uploads.pem.value in w.files && uploads.key.value in w.files
    requires var name := Nginxer.UpstreamName(p.domain, p.protocol);
             var file := Nginxer.ConfFilePath(settings.nginx, p.domain, p.protocol);
             var pem, key := Nginxer.CertPemPath(settings.nginx, name), Nginxer.CertKeyPath(settings.nginx, name);
             && uploads.pem.value != uploads.key.value
             && file != uploads.pem.value && file != uploads.key.value && file != pem && file != key
             && pem != uploads.pem.value && pem != uploads.key.value
             && key != uploads.pem.value && key != uploads.key.value
    ensures var name := Nginxer.UpstreamName(p.domain, p.protocol);
            var pem, key := Nginxer.CertPemPath(settings.nginx, name), Nginxer.CertKeyPath(settings.nginx, name);
            var o := BindOutcome(w, settings, p, uploads, userId, isAdmin, products, newId).1.files;
            && pem in o && o[pem] == w.files[uploads.pem.value]
            && key in o && o[key] == w.files[uploads.key.value]
            && uploads.pem.value !in o && uploads.key.value !in o
  {
    var cfg, name := settings.nginx, Nginxer.UpstreamName(p.domain, p.protocol);
    var tpl, file := Nginxer.TemplateFor(cfg, p.protocol), Nginxer.ConfFilePath(cfg, p.domain, p.protocol);
    var pem, key := Nginxer.CertPemPath(cfg, name), Nginxer.CertKeyPath(cfg, name);
    assert pem[|pem| - 1] == 'm' && key[|key| - 1] == 'y';
    var copied := w.files[file := w.files[tpl]];
    var u := Nginxer.UpdateOutcome(copied, cfg, file, uploads, p);
    assert u.result.Ok?;
    assert BindOutcome(w, settings, p, uploads, userId, isAdmin, products, newId).1.files == u.files;
    var once := Moved(copied, uploads.pem.value, pem);
    assert once[pem] == w.files[uploads.pem.value];
    var twice := Moved(once, uploads.key.value, key);
    assert twice[key] == w.files[uploads.key.value];
    assert twice[pem] == w.files[uploads.pem.value];
  }

  /** An https binding without both certificate files, once every check
      passed and the template exists, renders the error page with an
      undefined message, as the rejection is a bare string. The template
      copy `copyNew` made stays in the virtual-hosts directory, holding
      the `server_name`, `listen` and `proxy_pass` values assigned before
      the rejection; nginx is not reloaded and nothing is stored. */
  lemma MissingCertsLeavesConfFile(w: World, settings: Settings, p: Nginxer.BindParams,
                                   uploads: Nginxer.Uploads, userId: string, isAdmin: bool,
                                   products: seq<Product>, newId: string)
    requires CheckBind(p, isAdmin, UserServers(products, settings.proxyIpFilter), w.records).None?
    requires p.protocol == "https" && (uploads.pem.None? || uploads.key.None?)
    requires settings.nginx.httpsTemplate in w.files && w.files[settings.nginx.httpsTemplate].Conf?
    ensures var file := Nginxer.ConfFilePath(settings.nginx, p.domain, p.protocol);
            var tpl := w.files[settings.nginx.httpsTemplate].directives;
            BindOutcome(w, settings, p, uploads, userId, isAdmin, products, newId)
            == (ErrorPage(None), w.(files := w.files[file := Conf(Nginxer.HttpsHead(tpl, p))]))
  {
    var cfg := settings.nginx;
    var file := Nginxer.ConfFilePath(cfg, p.domain, p.protocol);
    var copied := w.files[file := w.files[cfg.httpsTemplate]];
    var head := Conf(Nginxer.HttpsHead(w.files[cfg.httpsTemplate].directives, p));
    assert Nginxer.UpdateOutcome(copied, cfg, file, uploads, p).files == copied[file := head];
    assert copied[file := head] == w.files[file := head];
  }

  /** A bind never stores a second record for a (domain, protocol) pair
      already bound. */
  lemma BindKeepsPairsUnique(w: World, settings: Settings, p: Nginxer.BindParams, uploads: Nginxer.Uploads,
                             userId: string, isAdmin: bool, products: seq<Product>, newId: string)
    requires UniquePairs(w.records)
    ensures UniquePairs(BindOutcome(w, settings, p, uploads, userId, isAdmin, products, newId).1.records)
  {
  }

  /** A bind never stores a second record under an `_id` already taken. */
  lemma BindKeepsIdsUnique(w: World, settings: Settings, p: Nginxer.BindParams, uploads: Nginxer.Uploads,
                           userId: string, isAdmin: bool, products: seq<Product>, newId: string)
    requires UniqueIds(w.records)
    ensures UniqueIds(BindOutcome(w, settings, p, uploads, userId, isAdmin, products, newId).1.records)
  {
  }

  /** The remove handler succeeds exactly when a record has the id and,
      for a non-admin, belongs to the requester; it then deletes that
      record and no other, keeping the rest in order. Otherwise it replies
      104 and changes nothing. */
  lemma UnbindScoping(w: World, cfg: Nginxer.Config, id: string, userId: string, isAdmin: bool)
    requires UniqueIds(w.records)
    ensures var o := UnbindOutcome(w, cfg, id, userId, isAdmin);
            && (o.0.code == 100 <==>
                  exists k :: 0 <= k < |w.records| && w.records[k].id == id && (isAdmin || w.records[k].userId == userId))
            && (o.0.code != 100 ==> o == (Reply(NullLookupText, 104), w))
            && (o.0.code == 100 ==>
                  exists k :: && 0 <= k < |w.records| && w.records[k].id == id
                              && (isAdmin || w.records[k].userId == userId)
                              && o.1.records == w.records[..k] + w.records[k + 1..]
                              && o.1.files == Nginxer.RemoveOutcome(w.files, cfg, w.records[k].name)
                              && o.1.reloads == w.reloads)
  {
    var q := Query(Some(id), OwnerScope(userId, isAdmin), None, None);
    var found := FirstMatch(w.records, q);
    if found.Some? {
      var k :| 0 <= k < |w.records| && w.records[k] == found.value && Matches(found.value, q);
      assert forall j :: 0 <= j < |w.records| && j != k ==> w.records[j].id != id;
      RemoveFirstAt(w.records, IdQuery(id), k);
    } else {
      assert forall k :: 0 <= k < |w.records| ==> !Matches(w.records[k], q);
    }
  }

  /** The remove handler never leaves two records with the same `_id`. */
  lemma UnbindKeepsIdsUnique(w: World, cfg: Nginxer.Config, id: string, userId: string, isAdmin: bool)
    requires UniqueIds(w.records)
    ensures UniqueIds(UnbindOutcome(w, cfg, id, userId, isAdmin).1.records)
  {
    var found := FirstMatch(w.records, Query(Some(id), OwnerScope(userId, isAdmin), None, None));
    if found.Some? {
      var k :| 0 <= k < |w.records| && w.records[k] == found.value && w.records[k].id == id;
      assert forall j :: 0 <= j < k ==> !Matches(w.records[j], IdQuery(id));
      RemoveFirstAt(w.records, IdQuery(id), k);
      UniqueIdsWithout(w.records, k);
    }
  }

  /** Removing, by its owner, the last record of the store, whose id no
      earlier record has, deletes that record's files and gives back the
      records before it. */
  lemma UnbindLast(files: Files, reloads: nat, records: seq<Record>, x: Record, cfg: Nginxer.Config,
                   isAdmin: bool)
    requires forall k :: 0 <= k < |records| ==> records[k].id != x.id
    ensures UnbindOutcome(World(files, reloads, records + [x]), cfg, x.id, x.userId, isAdmin)
            == (Reply("success", 100), World(Nginxer.RemoveOutcome(files, cfg, x.name), reloads, records))
  {
    var q := Query(Some(x.id), OwnerScope(x.userId, isAdmin), None, None);
    assert forall k :: 0 <= k < |records| ==> !Matches(records[k], q);
    assert forall k :: 0 <= k < |records| ==> !Matches(records[k], IdQuery(x.id));
    FirstMatchAppend(records, x, q);
    RemoveFirstAppend(records, x, IdQuery(x.id));
  }

  /** Removing, by its owner, the record a bind of `p` stores under a new
      id deletes the binding's configuration file and both certificate
      files and gives back the records before it, when `p` passed the
      domain and protocol checks. */
  lemma UnbindBound(files: Files, reloads: nat, records: seq<Record>, cfg: Nginxer.Config,
                    p: Nginxer.BindParams, userId: string, newId: string, isAdmin: bool)
    requires DomainPatternTest(p.domain) && KnownProtocol(p.protocol)
    requires forall k :: 0 <= k < |records| ==> records[k].id != newId
    ensures var name := Nginxer.UpstreamName(p.domain, p.protocol);
            var o := UnbindOutcome(World(files, reloads, records + [BoundRecord(cfg, p, userId, newId)]),
                                   cfg, newId, userId, isAdmin);
            && o.0 == Reply("success", 100)
            && o.1.records == records
            && Nginxer.ConfFilePath(cfg, p.domain, p.protocol) !in o.1.files
            && Nginxer.CertPemPath(cfg, name) !in o.1.files
            && Nginxer.CertKeyPath(cfg, name) !in o.1.files
  {
    var x := BoundRecord(cfg, p, userId, newId);
    UnbindLast(files, reloads, records, x, cfg, isAdmin);
    AcceptedDomainCharacters(p.domain);
    assert '_' !in p.protocol;
    Nginxer.RemoveDeletesBinding(files, cfg, p.domain, p.protocol);
  }

  /** Bind then unbind: right after a successful bind, its owner removing
      the new record gets the success reply, the configuration file and
      both certificate files of the binding are gone, and the records are
      back to what they were before the bind. */
  lemma UnbindAfterBind(w: World, settings: Settings, p: Nginxer.BindParams, uploads: Nginxer.Uploads,
                        userId: string, isAdmin: bool, products: seq<Product>, newId: string)
    requires BindSucceeds(w, settings, p, uploads, isAdmin, products, newId)
    ensures var cfg, name := settings.nginx, Nginxer.UpstreamName(p.domain, p.protocol);
            var b := BindOutcome(w, settings, p, uploads, userId, isAdmin, products, newId).1;
            var o := UnbindOutcome(b, cfg, newId, userId, isAdmin);
            && o.0 == Reply("success", 100)
            && o.1.records == w.records
            && Nginxer.ConfFilePath(cfg, p.domain, p.protocol) !in o.1.files
            && Nginxer.CertPemPath(cfg, name) !in o.1.files
            && Nginxer.CertKeyPath(cfg, name) !in o.1.files
  {
    BindRedirectsExactlyWhenSucceeds(w, settings, p, uploads, userId, isAdmin, products, newId);
    var b := BindOutcome(w, settings, p, uploads, userId, isAdmin, products, newId).1;
    assert b == World(b.files, b.reloads, w.records + [BoundRecord(settings.nginx, p, userId, newId)]);
    assert forall k :: 0 <= k < |w.records| ==> !Matches(w.records[k], IdQuery(newId));
    UnbindBound(b.files, b.reloads, w.records, settings.nginx, p, userId, newId, isAdmin);
  }
}
