/** The machine the panel runs on, reduced to what the panel touches: the
    files it reads, copies, moves and deletes (`fs-extra`), and the number
    of times nginx was told to reload. */
module Host {

  /** The directive values of a virtual-host file that the panel reads and
      writes (`server_name`, `listen`, `location.proxy_pass`,
      `ssl_certificate`, `ssl_certificate_key`). */
  datatype Directives = Directives(
    serverName: string,
    listen: int,
    proxyPass: string,
    sslCertificate: string,
    sslCertificateKey: string)

  /** A file: an nginx configuration, or any other data (an uploaded
      certificate, a key). */
  datatype Content = Conf(directives: Directives) | Blob(data: string)

  type Files = map<string, Content>

  /** `p` is `dir` itself or lies below it. */
  predicate InTree(dir: string, p: string) {
    p == dir || dir + "/" <= p
  }

  /** The files after `fs.moveSync(src, dst)`. */
  function Moved(files: Files, src: string, dst: string): (r: Files)
    ensures src in files ==> dst in r && r[dst] == files[src]
    ensures src in files && src != dst ==> src !in r
    ensures forall p :: p != src && p != dst ==> (p in r <==> p in files)
    ensures forall p :: p in r && p != dst ==> p in files && r[p] == files[p]
    ensures src !in files ==> r == files
  {
    if src in files then (files - {src})[dst := files[src]] else files
  }

  /** The files after `fs.removeSync(dir)`: `dir` and everything below it
      are gone, the rest is untouched. */
  function WithoutTree(files: Files, dir: string): (r: Files)
    ensures forall p :: p in r <==> p in files && !InTree(dir, p)
    ensures forall p :: p in r ==> r[p] == files[p]
  {
    map p | p in files && !InTree(dir, p) :: files[p]
  }

  class Machine {
    var files: Files
    /** How many times `nginx -s reload` was run. */
    var reloads: nat

    constructor (files: Files)
      ensures this.files == files && reloads == 0
    {
      this.files := files;
      reloads := 0;
    }

    /** `fs.copy(src, dst)`: fails when `src` does not exist, otherwise
        `dst` (created or overwritten) holds what `src` holds. */
    method Copy(src: string, dst: string) returns (ok: bool)
      modifies this`files
      ensures ok == (src in old(files))
      ensures files == if ok then old(files)[dst := old(files)[src]] else old(files)
    {
      ok := src in files;
      if ok {
        files := files[dst := files[src]];
      }
    }

    /** `fs.moveSync(src, dst)`. */
    method MoveSync(src: string, dst: string)
      modifies this`files
      ensures files == Moved(old(files), src, dst)
    {
      if src in files {
        var c := files[src];
        files := files - {src};
        files := files[dst := c];
      }
    }

    /** `fs.removeSync(path)`: removes a file or a whole directory; a
        missing path is not an error. */
    method RemoveSync(path: string)
      modifies this`files
      ensures files == WithoutTree(old(files), path)
    {
      files := WithoutTree(files, path);
    }

    /** Writes `c` to `path`, replacing what was there. */
    method Write(path: string, c: Content)
      modifies this`files
      ensures files == old(files)[path := c]
    {
      files := files[path := c];
    }

    /** `nginx -s reload`. */
    method Reload()
      modifies this`reloads
      ensures reloads == old(reloads) + 1
    {
      reloads := reloads + 1;
    }
  }
}
