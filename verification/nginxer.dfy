/** The virtual-host file handling of `app/utils/nginxer.js`: which file a
    binding gets, which template it starts from, the directive values
    written into it, where uploaded certificates go, and what removing a
    binding deletes. */
module Nginxer {
  import opened Js
  import opened Strings
  import opened Host

  /** The configured locations: the virtual-hosts directory
      (`NGINX_VHOSTS_PATH`), the certificate directory and the two
      templates shipped with the panel. */
  datatype Config = Config(
    vHostsPath: string,
    certsPath: string,
    httpTemplate: string,
    httpsTemplate: string)

  /** The bind form fields `update` reads (it spreads all of them into its
      result). */
  datatype BindParams = BindParams(
    protocol: string,
    domain: string,
    proxyIp: string,
    proxyPort: string)

  /** The temporary paths of the uploaded `pem` and `key` files, when they
      were uploaded. */
  datatype Uploads = Uploads(pem: Option<string>, key: Option<string>)

  datatype CertPaths = CertPaths(pem: string, key: string)

  /** What `update` resolves with: the form fields, the upstream `name`,
      the `confFile` and the certificate paths (`null` for http). */
  datatype UpdateResult = UpdateResult(
    params: BindParams,
    name: string,
    confFile: string,
    certs: Option<CertPaths>)

  // ---------------------------------------------------------------------
  // copyNew

  /** `${vHostsPath}/${domain}.${protocol}.conf` */
  function ConfFilePath(cfg: Config, domain: string, protocol: string): string {
    cfg.vHostsPath + "/" + domain + "." + protocol + ".conf"
  }

  /** The http template for `'http'`, the https template for any other
      protocol. */
  function TemplateFor(cfg: Config, protocol: string): string {
    if protocol == "http" then cfg.httpTemplate else cfg.httpsTemplate
  }

  /** Copies the template chosen by `protocol` to the binding's own file
      and resolves with that file's path; rejects, writing nothing, when the
      template is missing. */
  method CopyNew(m: Machine, cfg: Config, domain: string, protocol: string) returns (r: Result<string>)
    modifies m`files
    ensures var tpl, dst := TemplateFor(cfg, protocol), ConfFilePath(cfg, domain, protocol);
            if tpl in old(m.files)
            then r == Ok(dst) && m.files == old(m.files)[dst := old(m.files)[tpl]]
            else r == Err(NoSuchFile("lstat", tpl)) && m.files == old(m.files)
  {
    var newFile := ConfFilePath(cfg, domain, protocol);
    var tplFile := TemplateFor(cfg, protocol);
    var ok := m.Copy(tplFile, newFile);
    if ok {
      r := Ok(newFile);
    } else {
      r := Err(NoSuchFile("lstat", tplFile));
    }
  }

  // ---------------------------------------------------------------------
  // update

  /** The upstream name: the domain with every `.` turned into `_`, then
      `_` and the protocol. */
  function UpstreamName(domain: string, protocol: string): string {
    ReplaceAll(domain, '.', '_') + "_" + protocol
  }

  /** The directory holding the certificates of upstream `name`. */
  function CertDir(cfg: Config, name: string): string {
    cfg.certsPath + "/" + name
  }

  function CertPemPath(cfg: Config, name: string): string {
    CertDir(cfg, name) + "/cert.pem"
  }

  function CertKeyPath(cfg: Config, name: string): string {
    CertDir(cfg, name) + "/cert.key"
  }

  /** `proxy_pass`: always the `http://` scheme, for https bindings too. */
  function ProxyPass(params: BindParams): string {
    "http://" + params.proxyIp + ":" + params.proxyPort
  }

  const MissingCertsText := "未上传证书文件"

  /** The message given to a configuration the parser cannot read; the
      parser's own wording is not part of this model. */
  const UnparsableText := "nginx configuration could not be parsed"

  /** The rejection `update` gives when an https binding lacks a
      certificate, exactly as written: a bare string. */
  function MissingCertsRejectionAsWritten(): Thrown {
    BareString(MissingCertsText)
  }

  /** As written, the handler that catches the rejection reads
      `e.message` from a string and renders `undefined`. */
  lemma MissingCertsMessageLost()
    ensures MessageOf(MissingCertsRejectionAsWritten()) == None
  {
  }

  /** The rejection as evidently intended: an `Error` whose message the
      handler renders. */
  function MissingCertsRejection(): (e: Thrown)
    ensures MessageOf(e) == Some(MissingCertsText)
  {
    ErrorObject(MissingCertsText)
  }

  /** The in-memory tree of one configuration file (`nginx-conf`), reduced
      to the directive values the panel assigns. */
  class ConfTree {
    const file: string
    var serverName: string
    var listen: int
    var proxyPass: string
    var sslCertificate: string
    var sslCertificateKey: string

    constructor (file: string, d: Directives)
      ensures this.file == file && Snapshot() == d
    {
      this.file := file;
      serverName, listen, proxyPass := d.serverName, d.listen, d.proxyPass;
      sslCertificate, sslCertificateKey := d.sslCertificate, d.sslCertificateKey;
    }

    function Snapshot(): Directives
      reads this
    {
      Directives(serverName, listen, proxyPass, sslCertificate, sslCertificateKey)
    }

    /** `conf.flush()`: writes the tree back to its file. */
    method Flush(m: Machine)
      modifies m`files
      ensures m.files == old(m.files)[file := Conf(Snapshot())]
    {
      m.Write(file, Conf(Snapshot()));
    }
  }

  /** The directive values `update` leaves in a file that started as `tpl`. */
  function Filled(tpl: Directives, cfg: Config, params: BindParams): Directives {
    var name := UpstreamName(params.domain, params.protocol);
    if params.protocol == "http"
    then tpl.(serverName := params.domain, listen := 80, proxyPass := ProxyPass(params))
    else Directives(params.domain, 443, ProxyPass(params), CertPemPath(cfg, name), CertKeyPath(cfg, name))
  }

  /** The directive values an https update has assigned when it finds a
      certificate missing: `server_name`, `listen 443` and `proxy_pass`. */
  function HttpsHead(tpl: Directives, params: BindParams): Directives {
    tpl.(serverName := params.domain, listen := 443, proxyPass := ProxyPass(params))
  }

  datatype UpdateStep = UpdateStep(result: Result<UpdateResult>, files: Files)

  /** The outcome of `update(file, certs, params)` on `files`. */
  function UpdateOutcome(files: Files, cfg: Config, file: string, uploads: Uploads, params: BindParams): (u: UpdateStep)
    // The file must exist and parse; nothing is written otherwise.
    ensures file !in files || !files[file].Conf? ==> u.result.Err? && u.files == files
    // https without both certificate files: rejected with the bare string,
    // before any move; the three values assigned so far reach the file.
    ensures file in files && files[file].Conf? &&
            params.protocol != "http" && (uploads.pem.None? || uploads.key.None?)
            ==> && u.result == Err(MissingCertsRejectionAsWritten())
                && u.files == files[file := Conf(HttpsHead(files[file].directives, params))]
                && u.files[file].directives.serverName == params.domain
                && u.files[file].directives.listen == 443
    // Otherwise a parsable file always resolves.
    ensures file in files && files[file].Conf? &&
            (params.protocol == "http" || (uploads.pem.Some? && uploads.key.Some?))
            ==> u.result.Ok?
    // What a resolved update returns and writes.
    ensures u.result.Ok? ==>
              file in files && files[file].Conf? && file in u.files && u.files[file].Conf?
    ensures u.result.Ok? && file in u.files && u.files[file].Conf? ==>
              var name, d := UpstreamName(params.domain, params.protocol), u.files[file].directives;
              && u.result.value == UpdateResult(params, name, file,
                   if params.protocol == "http" then None
                   else Some(CertPaths(CertPemPath(cfg, name), CertKeyPath(cfg, name))))
              && d.serverName == params.domain
              && d.listen == (if params.protocol == "http" then 80 else 443)
              && d.proxyPass == "http://" + params.proxyIp + ":" + params.proxyPort
              && (params.protocol != "http" ==>
                    d.sslCertificate == CertPemPath(cfg, name) && d.sslCertificateKey == CertKeyPath(cfg, name))
              && (params.protocol == "http" ==>
                    && d.sslCertificate == files[file].directives.sslCertificate
                    && d.sslCertificateKey == files[file].directives.sslCertificateKey)
    // Which other files a resolved update touches: none for http; for https
    // the two uploads, moved to the binding's certificate paths.
    ensures u.result.Ok? && params.protocol == "http" ==> u.files == files[file := u.files[file]]
    ensures u.result.Ok? && params.protocol != "http" ==>
              var name := UpstreamName(params.domain, params.protocol);
              && uploads.pem.Some? && uploads.key.Some?
              && u.files == Moved(Moved(files, uploads.pem.value, CertPemPath(cfg, name)),
                                  uploads.key.value, CertKeyPath(cfg, name))[file := u.files[file]]
  {
    if file !in files then UpdateStep(Err(NoSuchFile("open", file)), files)
    else if !files[file].Conf? then UpdateStep(Err(ErrorObject(UnparsableText)), files)
    else
      var name := UpstreamName(params.domain, params.protocol);
      var conf := Conf(Filled(files[file].directives, cfg, params));
      if params.protocol == "http" then
        UpdateStep(Ok(UpdateResult(params, name, file, None)), files[file := conf])
      else if uploads.pem.None? || uploads.key.None? then
        UpdateStep(Err(MissingCertsRejectionAsWritten()), files[file := Conf(HttpsHead(files[file].directives, params))])
      else
        var pem, key := CertPemPath(cfg, name), CertKeyPath(cfg, name);
        var moved := Moved(Moved(files, uploads.pem.value, pem), uploads.key.value, key);
        UpdateStep(Ok(UpdateResult(params, name, file, Some(CertPaths(pem, key)))), moved[file := conf])
  }

  /** Fills the copied file with the binding's values (for https after
      moving the uploaded certificates into place) and flushes it. The tree
      also saves itself after every change, so the values assigned before
      a rejection reach the file too. */
  method Update(m: Machine, cfg: Config, file: string, uploads: Uploads, params: BindParams)
    returns (r: Result<UpdateResult>)
    modifies m`files
    ensures UpdateStep(r, m.files) == UpdateOutcome(old(m.files), cfg, file, uploads, params)
  {
    if file !in m.files {
      return Err(NoSuchFile("open", file));
    }
    if !m.files[file].Conf? {
      return Err(ErrorObject(UnparsableText));
    }
    var conf := new ConfTree(file, m.files[file].directives);
    var upStream := UpstreamName(params.domain, params.protocol);
    var certsRes: Option<CertPaths> := None;
    if params.protocol == "http" {
      conf.serverName := params.domain;
      conf.listen := 80;
      conf.proxyPass := "http://" + params.proxyIp + ":" + params.proxyPort;
    } else {
      conf.serverName := params.domain;
      conf.listen := 443;
      conf.proxyPass := "http://" + params.proxyIp + ":" + params.proxyPort;
      if uploads.pem.Some? && uploads.key.Some? {
        m.MoveSync(uploads.pem.value, CertPemPath(cfg, upStream));
        m.MoveSync(uploads.key.value, CertKeyPath(cfg, upStream));
      } else {
        // The rejection does not stop the tree from saving what was set.
        conf.Flush(m);
        return Err(MissingCertsRejectionAsWritten());
      }
      conf.sslCertificate := CertPemPath(cfg, upStream);
      conf.sslCertificateKey := CertKeyPath(cfg, upStream);
      certsRes := Some(CertPaths(conf.sslCertificate, conf.sslCertificateKey));
    }
    conf.Flush(m);
    r := Ok(UpdateResult(params, upStream, file, certsRes));
  }

  /** `reload`: runs `nginx -s reload` and always resolves. */
  method Reload(m: Machine)
    modifies m`reloads
    ensures m.reloads == old(m.reloads) + 1
  {
    m.Reload();
  }

  // ---------------------------------------------------------------------
  // remove

  /** The configuration file `remove` deletes for upstream `name`: every
      `_` turned back into `.`, then `.conf`. */
  function RemovedConfPath(cfg: Config, name: string): string {
    cfg.vHostsPath + "/" + ReplaceAll(name, '_', '.') + ".conf"
  }

  /** The files after `remove(name, protocol)`. */
  function RemoveOutcome(files: Files, cfg: Config, name: string): Files {
    WithoutTree(WithoutTree(files, CertDir(cfg, name)), RemovedConfPath(cfg, name))
  }

  /** Deletes the certificate directory of `name` and its configuration
      file; the protocol argument is not used. Always resolves with true. */
  method Remove(m: Machine, cfg: Config, name: string, protocol: string) returns (r: bool)
    modifies m`files
    ensures r
    ensures m.files == RemoveOutcome(old(m.files), cfg, name)
  {
    var domain := ReplaceAll(name, '_', '.');
    var confFile := cfg.vHostsPath + "/" + domain + ".conf";
    m.RemoveSync(CertDir(cfg, name));
    m.RemoveSync(confFile);
    r := true;
  }

  // ---------------------------------------------------------------------
  // Properties

  /** The round trip: for a domain and protocol without `_`, the file
      `remove` deletes for the upstream name is the file `copyNew` created. */
  lemma RemovePathMatchesCopyNew(cfg: Config, domain: string, protocol: string)
    requires '_' !in domain && '_' !in protocol
    ensures RemovedConfPath(cfg, UpstreamName(domain, protocol)) == ConfFilePath(cfg, domain, protocol)
  {
  }

  /** An underscore breaks the round trip: for a domain with `_` at index
      `i`, `remove` turns that `_` into `.` and deletes another file than
      the one `copyNew` made (for `a_b.com` over http, `a.b.com.http.conf`
      instead of `a_b.com.http.conf`). */
  lemma UnderscoreBreaksRoundTrip(cfg: Config, domain: string, protocol: string, i: nat)
    requires i < |domain| && domain[i] == '_'
    ensures RemovedConfPath(cfg, UpstreamName(domain, protocol)) != ConfFilePath(cfg, domain, protocol)
  {
    var v := cfg.vHostsPath + "/";
    var name := UpstreamName(domain, protocol);
    assert name[i] == ReplaceAll(domain, '.', '_')[i] == '_';
    var back := ReplaceAll(name, '_', '.');
    assert RemovedConfPath(cfg, name)[|v| + i] == back[i] == '.';
    assert ConfFilePath(cfg, domain, protocol)[|v| + i] == domain[i];
  }

  /** The certificate files a binding's update moves into place lie in the
      directory `remove` deletes for that binding's upstream name. */
  lemma CertFilesInCertDir(cfg: Config, name: string)
    ensures InTree(CertDir(cfg, name), CertPemPath(cfg, name))
    ensures InTree(CertDir(cfg, name), CertKeyPath(cfg, name))
  {
  }

  /** Removing the upstream name of a domain and protocol without `_`
      deletes the file `copyNew` created and both certificate files
      `update` moved into place; a path outside those is kept unchanged. */
  lemma {:induction false} RemoveDeletesBinding(files: Files, cfg: Config, domain: string, protocol: string)
    requires '_' !in domain && '_' !in protocol
    ensures var name, r := UpstreamName(domain, protocol), RemoveOutcome(files, cfg, UpstreamName(domain, protocol));
            && ConfFilePath(cfg, domain, protocol) !in r
            && CertPemPath(cfg, name) !in r
            && CertKeyPath(cfg, name) !in r
            && forall p :: p in files && !InTree(CertDir(cfg, name), p) && !InTree(ConfFilePath(cfg, domain, protocol), p)
                 ==> p in r && r[p] == files[p]
  {
    var name := UpstreamName(domain, protocol);
    RemovePathMatchesCopyNew(cfg, domain, protocol);
    CertFilesInCertDir(cfg, name);
  }
}
