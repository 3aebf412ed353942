# nginx binding panel: verified model

A small web panel lets the customers of a hosting provider bind one of their
domains to one of their servers through a shared nginx reverse proxy. The
panel builds one virtual-host file per (domain, protocol) binding from a
template. For https it moves the uploaded certificate into a per-binding
directory. It reloads nginx and keeps a record of the binding in an embedded
document store. It also talks to the provider's account API, adding its
credentials to every request.

This project models the core of that panel in Dafny and proves properties
about it:

- `strings.dfy` (module `Strings`): the JavaScript string operations the
  handlers rely on. These are `trim` over ECMAScript whitespace,
  `replace(/c/g, d)` for a single character, `indexOf` with its
  empty-needle case, and a splitter used to state how a body parses back.
- `domain.dfy` (module `Domain`): the bind handler's domain regular
  expression, written as a label scanner. It is proved equal to a
  label-based definition of a domain name.
- `js.dfy` (module `Js`): optional values, what a rejected promise carries
  (an `Error` or a bare string), and what `e.message` reads from it.
- `host.dfy` (module `Host`): the machine as a `Machine` object. It holds a
  map from paths to file contents and a count of nginx reloads. Its methods
  are the `fs-extra` calls the panel makes (copy, move, recursive remove)
  and `Write`, which stands for the configuration tree writing itself back
  to its file.
- `nginxer.dfy` (module `Nginxer`): `copyNew`, `update` (through an
  in-memory `ConfTree` object that is filled and flushed), `reload` and
  `remove` of `app/utils/nginxer.js`.
- `store.dfy` (module `Store`): the binding store as a `Datastore` object
  over a sequence of records, with `findOne`, `find`, `insert` and `remove`.
- `router.dfy` (module `Router`): the request handlers of `app/router.js`.
  These are the product filter, the session gate, the bind handler with its
  ordered checks and effects, and the owner-scoped list and remove handlers.
- `api.dfy` (module `Api`): the request interceptor of `app/utils/api.js`.
  It merges the credentials into the payload and encodes it as a
  `application/x-www-form-urlencoded` body.

Each handler that changes state is a method. Its postcondition equals a
pure outcome function of the state before the call (`BindOutcome`,
`UnbindOutcome`, `UpdateOutcome`). The lemmas about the panel's behaviour
are stated over those functions.

Two behaviours of the code are easy to miss:

- An https bind without both certificate files is rejected only after
  `copyNew` has copied the template. The copy stays in the virtual-hosts
  directory. It holds the `server_name`, `listen 443` and `proxy_pass`
  values `update` assigned before the rejection, because the configuration
  tree writes itself back after every change
  (`Router.MissingCertsLeavesConfFile`).
- The bind handler starts `nginx -t` without awaiting it
  (app/router.js:166), and `reload` always resolves. Neither decides
  whether the record is stored. `test` rejects when `nginx -t` prints
  nothing on standard output, and nothing handles that rejection; on
  Node 15 and later an unhandled rejection ends the process. That
  rejection is not modelled.

## Model

| member | source | states |
|---|---|---|
| Strings.Trim | app/router.js:108-110 | `trim`: the result neither starts nor ends with JavaScript whitespace and is no longer than the input |
| Strings.TrimIsMaximalSlice | app/router.js:108-110 | `trim` keeps one contiguous slice of the input and drops only whitespace before and after it |
| Strings.TrimIdempotent | app/router.js:108-110 | trimming an already trimmed field changes nothing |
| Strings.IndexOf | app/router.js:21 | `indexOf` is -1 exactly when the needle occurs nowhere; otherwise it is the first position where it occurs (0 for the empty needle) |
| Strings.ReplaceAll | app/utils/nginxer.js:65 | a global single-character replace keeps the length, turns every `from` into `to` and keeps every other character |
| Strings.ReplaceAllInverse | app/utils/nginxer.js:153 | turning `.` into `_` and back restores a string that had no `_` |
| Domain.MatchLabelsMeansValidLabels | app/router.js:123 | the label part of the pattern matches exactly when splitting at `.` gives enough labels, each 1 to 63 characters of `[-a-zA-Z0-9]` starting alphanumeric |
| Domain.MatchLabels | app/router.js:123 | the label part of the pattern as a scanner; its meaning is stated by `Domain.MatchLabelsMeansValidLabels` |
| Domain.DomainPatternTest | app/router.js:123 | the whole domain pattern, length lookahead included; its meaning is stated by `Domain.DomainPatternMeansDomainName` and `Domain.AcceptedDomainCharacters` |
| Domain.DomainPatternMeansDomainName | app/router.js:123 | the domain pattern accepts exactly the 3 to 255 character strings of two or more such labels |
| Domain.AcceptedDomainCharacters | app/router.js:123 | an accepted domain holds only letters, digits, `-` and `.`, so it has no `_`, has a dot and is its own trim |
| Js.MessageOf | app/router.js:174-177 | `e.message` is defined exactly for an `Error` rejection and is then its message |
| Host.Moved | app/utils/nginxer.js:83-84 | after a move the destination holds what the source held, the source is gone and every other path is unchanged |
| Host.WithoutTree | app/utils/nginxer.js:155-156 | a recursive remove deletes the path and everything below it and keeps the rest unchanged |
| Host.Machine.Copy | app/utils/nginxer.js:38-44 | a copy fails exactly when the source is missing; otherwise the destination holds the source's content |
| Host.Machine.MoveSync | app/utils/nginxer.js:83-84 | the files become `Moved` of the old files |
| Host.Machine.RemoveSync | app/utils/nginxer.js:155-156 | the files become `WithoutTree` of the old files |
| Host.Machine.Reload | app/utils/nginxer.js:129-135 | one more nginx reload, no file changed |
| Host.Machine.Write | app/utils/nginxer.js:97 | the path now holds the given content and no other file changes; `Nginxer.ConfTree.Flush` uses it |
| Nginxer.CopyNew | app/utils/nginxer.js:28-46 | copies the http template for `http` and the https template otherwise to `<vhosts>/<domain>.<protocol>.conf` and resolves with that path; rejects with ENOENT and writes nothing when the template is missing |
| Nginxer.ConfFilePath | app/utils/nginxer.js:30 | the binding's file `<vhosts>/<domain>.<protocol>.conf`; `Nginxer.CopyNew` and `Nginxer.RemovePathMatchesCopyNew` state its role |
| Nginxer.TemplateFor | app/utils/nginxer.js:31-36 | the http template for `http`, the https template otherwise; `Nginxer.CopyNew` states it |
| Nginxer.UpstreamName | app/utils/nginxer.js:65 | the upstream name, `.` turned into `_` plus `_<protocol>`; `Nginxer.RemovePathMatchesCopyNew` and `Nginxer.UnderscoreBreaksRoundTrip` state when `remove` can invert it |
| Nginxer.Filled | app/utils/nginxer.js:73-95 | the directive values a resolved update writes; `Nginxer.UpdateOutcome` states each of them |
| Nginxer.HttpsHead | app/utils/nginxer.js:78-80 | the values an https update has assigned when it finds a certificate missing; `Nginxer.UpdateOutcome` and `Router.MissingCertsLeavesConfFile` state where they end up |
| Nginxer.ProxyPass | app/utils/nginxer.js:76-80 | `http://<ip>:<port>` for http and https alike; `Nginxer.UpdateOutcome` states it is the written `proxy_pass` |
| Nginxer.CertDir | app/utils/nginxer.js:155 | the per-upstream certificate directory `remove` deletes; `Nginxer.CertFilesInCertDir` and `Nginxer.RemoveDeletesBinding` state its role |
| Nginxer.CertPemPath | app/utils/nginxer.js:83-89 | where the certificate is moved and what `ssl_certificate` names; `Nginxer.UpdateOutcome` and `Router.BindPlacesCertificates` state it |
| Nginxer.CertKeyPath | app/utils/nginxer.js:84-90 | where the key is moved and what `ssl_certificate_key` names; `Nginxer.UpdateOutcome` and `Router.BindPlacesCertificates` state it |
| Nginxer.ConfTree.Flush | app/utils/nginxer.js:97 | the file now holds the tree's directive values |
| Nginxer.UpdateOutcome | app/utils/nginxer.js:56-107 | a missing or unparsable file is rejected with no change; https without both certificate files is rejected with the bare string before any move, the file keeping the `server_name`, `listen 443` and `proxy_pass` already assigned; every other parsable file resolves, returning the params, the upstream name, the file and the certificate paths (none for http), and writing `server_name`, `listen` 80 or 443, an `http://ip:port` `proxy_pass` and, for https, the two certificate paths; http touches no other file, https moves the two uploads to the certificate paths and touches nothing else |
| Nginxer.Update | app/utils/nginxer.js:56-107 | moving the certificates and filling and flushing the tree leaves exactly the files and result of `UpdateOutcome` |
| Nginxer.Reload | app/utils/nginxer.js:129-135 | reload always resolves and counts one reload |
| Nginxer.Remove | app/utils/nginxer.js:151-160 | deletes the certificate directory of the name, then `<vhosts>/<name with _ as .>.conf`, and returns true |
| Nginxer.RemovedConfPath | app/utils/nginxer.js:153-154 | the file `remove` deletes, `_` turned back into `.`; `Nginxer.RemovePathMatchesCopyNew` states when it is the file `copyNew` made |
| Nginxer.RemoveOutcome | app/utils/nginxer.js:155-156 | the files after `remove`; `Nginxer.RemoveDeletesBinding` states what goes and what stays |
| Nginxer.RemovePathMatchesCopyNew | app/utils/nginxer.js:151-156 | for a domain and protocol without `_`, the file `remove` deletes for the upstream name is the file `copyNew` created |
| Nginxer.UnderscoreBreaksRoundTrip | app/utils/nginxer.js:153 | for any domain holding `_` the round trip fails, so the domain check is what makes removal find the file |
| Nginxer.CertFilesInCertDir | app/utils/nginxer.js:83-84 | both certificate files lie inside the directory `remove` deletes |
| Nginxer.RemoveDeletesBinding | app/utils/nginxer.js:151-156 | removing a binding's upstream name deletes its configuration file and both certificate files and keeps every unrelated file |
| Nginxer.MissingCertsMessageLost | app/router.js:174-177 | that rejection reaches the error page as `undefined` |
| Nginxer.MissingCertsRejection | app/utils/nginxer.js:87 | the corrected rejection's message is the missing-certificate text |
| Store.FirstMatch | app/router.js:155 | `findOne` finds nothing exactly when no record matches; otherwise it returns the earliest match |
| Store.Matches | app/router.js:155 | a store query matches a record when every field it names is equal; `Store.FirstMatch` and `Store.AllMatches` are stated in its terms |
| Store.RemoveFirst | app/router.js:220 | the records after a single-document `remove`; `Store.RemoveFirstAt` and `Store.RemoveFirstNoMatch` state what it deletes |
| Store.AllMatches | app/router.js:198-201 | `find` returns exactly the matching records, each as many times as it is stored |
| Store.RemoveFirstNoMatch | app/router.js:220 | `remove` with a query nothing matches changes nothing |
| Store.RemoveFirstAt | app/router.js:220 | `remove` deletes exactly the first matching record and keeps the others in order |
| Store.FirstMatchAppend | app/router.js:218 | a record appended after an earlier match does not change the lookup; with no earlier match, it is found exactly when it matches |
| Store.RemoveFirstAppend | app/router.js:220 | removing by a query only the appended record matches gives back the records before it |
| Store.Datastore.FindOne | app/router.js:155 | the scan returns `FirstMatch` |
| Store.Datastore.Find | app/router.js:198-201 | the scan returns `AllMatches` |
| Store.Datastore.Insert | app/router.js:168-172 | an insert is rejected with a unique-constraint error and no change when the `_id` is taken, and appends the document otherwise |
| Store.Datastore.Remove | app/router.js:220 | the records become `RemoveFirst`, and the count is 1 or 0 |
| Router.CheckProxyIpProducts | app/router.js:18-26 | true exactly when some configured filter entry occurs in the IP |
| Router.GetUserProducts | app/router.js:39-52 | the loop builds exactly `UserServers`: each active product whose IP holds a filter entry, in API order, projected |
| Router.UserServers | app/router.js:39-52 | the product list the loop builds; `Router.UserServersMembers` states its members |
| Router.Eligible | app/router.js:42 | an active product whose IP holds a filter entry; `Router.UserServersMembers` states that exactly these are listed |
| Router.Project | app/router.js:43-48 | the `{name, domain, ip, servername}` object pushed for a product; `Router.UserServersMembers` states the list holds exactly these projections |
| Router.UserServersMembers | app/router.js:41-50 | a server is listed exactly when it is the projection of an eligible product; there are never more servers than products |
| Router.Authorize | app/router.js:62-75 | no session user: redirect to `/login.html` and do not call the handler; otherwise the admin id gets `isAdmin` and the admin type name, anyone else the user type name with `isAdmin` kept, and the handler runs with that user |
| Router.WithIp | app/router.js:142-144 | the filter keeps exactly the servers with the requested IP |
| Router.Trimmed | app/router.js:108-110 | the three trimmed fields, the protocol kept as sent; `Router.Bind` states the form ends up so |
| Router.CheckBind | app/router.js:115-160 | each rejection (empty field, domain syntax, protocol, product not owned by a non-admin, duplicate pair) happens exactly when its check fails and every earlier one passed |
| Router.BindError.Message | app/router.js:115-160 | the five error-page messages of the checks; `Router.BindOutcome` renders the first failed check's message |
| Router.PairQuery | app/router.js:155 | the duplicate lookup by domain and protocol; `Router.CheckBind` and `Router.BindKeepsPairsUnique` state what it rules out |
| Router.ValidateBind | app/router.js:115-160 | the handler's checks, run in order, give `CheckBind` |
| Router.ApplyBind | app/router.js:161-178 | copy, update, reload and insert, stopping at the first rejection, leave exactly the page and state of `EffectsOutcome` |
| Router.EffectsOutcome | app/router.js:161-178 | copy, update, reload and insert in order, the first rejection rendering its `e.message`; `Router.BindRedirectsExactlyWhenSucceeds` and `Router.BindPlacesCertificates` state its results |
| Router.RecordOf | app/router.js:168-172 | the stored record: `update`'s result, the protocol and the user's id; `Router.BindRedirectsExactlyWhenSucceeds` states it is what a successful bind appends |
| Router.BindOutcome | app/router.js:105-179 | the first failed check's message with no change, or the effects; the bind lemmas below state its properties |
| Router.Bind | app/router.js:105-179 | the form fields are trimmed in place, and the handler renders and leaves exactly `BindOutcome` of the state before it |
| Router.BindRedirectsExactlyWhenSucceeds | app/router.js:161-178 | the bind redirects to `/` exactly when every check and effect succeeds; it has then reloaded nginx once, written the filled configuration and appended the binding's record; an error page never adds a record |
| Router.BindPlacesCertificates | app/utils/nginxer.js:81-84 | after a successful https bind the two certificate paths hold the uploaded files and the uploads are gone |
| Router.MissingCertsLeavesConfFile | app/router.js:161-178 | an https bind without both certificate files renders the error page with an undefined message and leaves the copied template in place with `server_name`, `listen 443` and `proxy_pass` filled in, with no reload and no record |
| Router.BindKeepsPairsUnique | app/router.js:155-160 | no bind stores a second record for a (domain, protocol) pair that is already bound |
| Router.BindKeepsIdsUnique | app/router.js:168-172 | no bind stores a second record under a taken `_id` |
| Router.Lists | app/router.js:195-206 | an admin lists every record; anyone else lists exactly the records they own, each as many times as it is stored |
| Router.RemoveBinding | app/router.js:211-225 | the handler replies and leaves exactly `UnbindOutcome` of the state before it |
| Router.UnbindOutcome | app/router.js:211-225 | the owner-scoped lookup, then the file and record removal; `Router.UnbindScoping` states its properties |
| Router.OwnerScope | app/router.js:214-217 | no owner constraint for an admin, the requester's id otherwise; `Router.UnbindScoping` states the resulting scoping |
| Router.IdQuery | app/router.js:220 | the delete-by-id query; `Router.UnbindScoping` states that it deletes exactly the found record |
| Router.UnbindScoping | app/router.js:211-225 | a remove succeeds (code 100) exactly when a record has the id and, for a non-admin, belongs to the requester; it then deletes that one record and its files; otherwise it replies 104 and changes nothing |
| Router.UnbindKeepsIdsUnique | app/router.js:211-225 | a remove never leaves two records under the same `_id`, so the premise of `Router.UnbindScoping` survives every remove as it survives every bind |
| Router.UnbindLast | app/router.js:218-220 | an owner removing the most recently stored record, whose id is new, gets success and the records from before it |
| Router.UnbindBound | app/router.js:211-225 | an owner removing the record a bind of a checked domain and protocol stored under a new id gets success, the records from before it, and none of the binding's files |
| Router.UnbindAfterBind | app/router.js:211-225 | right after a successful bind, its owner's remove succeeds, restores the records and deletes the configuration file and both certificate files |
| Api.Lookup | app/utils/api.js:24 | reading a property finds nothing exactly when no entry has that name, and otherwise the value of the first entry with that name |
| Api.Put | app/utils/api.js:17-22 | assigning a property keeps every name in its place, replaces the value of an existing name, and appends a new name last |
| Api.Spread | app/utils/api.js:17-18 | spreading `undefined` gives nothing, an object gives its entries, a string gives one entry per character |
| Api.Merge | app/utils/api.js:17-22 | the payload spread, then the three credentials assigned; `Api.MergeLookup` and `Api.MergeShape` state its properties |
| Api.Field | app/utils/api.js:24 | one `name=value` field; `Api.SerializeSplits` states how it parses back |
| Api.Serialize | app/utils/api.js:23-25 | the body is empty exactly for an empty payload and otherwise ends with `&` |
| Api.EncodeForm | app/utils/api.js:23-25 | the loop builds exactly `Serialize` of the payload |
| Api.Intercept | app/utils/api.js:15-30 | `conf.data` becomes the encoding of the merged payload, the rest of `conf` is unchanged, and the same `conf` is returned |
| Api.SerializeAppend | app/utils/api.js:24 | each loop step appends the property's `key=value&` field |
| Api.LookupPut | app/utils/api.js:17-22 | after an assignment the name reads the new value and every other name reads as before |
| Api.PutKeys | app/utils/api.js:17-22 | an assignment adds only its own name and keeps names distinct |
| Api.MergeLookup | app/utils/api.js:17-22 | the merged payload holds the panel's identifier and secret and `responsetype=json`, overriding the caller's; every other property keeps the caller's value |
| Api.MergeShape | app/utils/api.js:17-22 | the caller's properties keep their order, at most three names are added, the names are the caller's plus the three, and distinct names stay distinct |
| Api.MergeSize | app/utils/api.js:17-22 | the merged payload has at least three properties |
| Api.SerializeAmpersands | app/utils/api.js:23-25 | when names and values are escaped, the body has exactly one `&` per property |
| Api.SerializeSplits | app/utils/api.js:23-25 | splitting the body at `&` gives each property's field in order and then an empty rest, and splitting a field at `=` gives the encoded name and value |
| Api.InterceptedBody | app/utils/api.js:16-26 | the sent body has one `&` per merged property, so at least three, and ends with `&` |

## Left out

- The HTTP server, the session middleware, template rendering and body
  parsing (`app/index.js`, app/router.js:78-104) are framework plumbing. A
  handler's input is the parsed form, the uploads and the session user. Its
  output is a `Page` or `Reply`.
- The login handler and the calls to the remote account API over the
  network are not modelled (app/router.js:34-38 and 230 onwards). The
  product list is an input of `GetUserProducts` and `Bind`.
- `Nginxer.test` and `Nginxer.domains` are not modelled. `test` is started
  without being awaited, so it gates nothing; `domains` is a directory scan
  no handler here uses. `reload` runs a process and always resolves; it is
  modelled as a reload counter.
- `encodeURIComponent` is the parameter `enc`. The delimiter properties
  assume only that its output holds no `&` and no `=`. The identifier and
  secret from the configuration file are parameters.
- Api.Spread: JavaScript enumerates integer-like property names first in
  ascending order. The model keeps plain insertion order for object
  payloads, and property values are strings.
- The nginx configuration parser is reduced to five directive values. Its
  error wording is not modelled (`UnparsableText`), and neither is the
  exact wording of Node's ENOENT errors.
- Nginxer.Update: `moveSync` of a missing upload is a no-op here, but it
  throws in Node. Any other exception inside the parser's callback escapes
  the promise and would crash or hang the request. Neither is modelled.
- Logging is not modelled: the `flushed` listener (app/utils/nginxer.js:62-64)
  and the `logger.info` call after a remove (app/utils/nginxer.js:157) only
  write log lines.
- Host.Moved: a move onto an existing destination replaces it. Without
  `overwrite: true`, `fs-extra`'s `moveSync` throws instead, inside the
  parser's callback. That happens when certificate files of the same
  upstream name are already in place, for instance after an earlier bind
  whose `insert` failed following the moves. The model lets such a bind
  succeed.
- Nginxer.UpdateOutcome: the configuration tree writes itself back to the
  file asynchronously, a short while after each change, as well as on
  `flush`. The model writes once, at the point where `update` resolves or
  rejects, so the handler may in fact reload nginx before the write lands.
- Simultaneous requests are not modelled. The race between two binds of
  the same pair, between the duplicate check and the insert, is outside the
  model.
- The store's `_id` generator is the parameter `newId`. `find` returns
  records in store order; the real store's order is unspecified.
- The stored record holds the four form fields the handler reads. Any
  extra field the form carried, which `...params` would also spread into
  the record, is not modelled.
- A form without one of the three trimmed fields (`domain`, `proxyIp`,
  `proxyPort`) makes `trim` throw a `TypeError`. A form without `protocol`
  does not throw: `undefined` is not `''`, so it passes the empty-field
  check and is rejected as a bad protocol. The model's form always has all
  four fields as strings, so neither case is modelled. A missing `isAdmin` on the session
  user reads as false.

## Findings

| source | as written | input that shows it | evidently intended | confidence | as-written member | corrected member |
|---|---|---|---|---|---|---|
| app/utils/nginxer.js:87 | `update` rejects with the bare string `'未上传证书文件'`, and the bind handler's `catch` renders `e.message` (app/router.js:176), which is `undefined` for a string | an https bind that passes every check with no `key` file uploaded | reject with an `Error` carrying that message, so that the error page shows it | not executed | Router.MissingCertsLeavesConfFile | Nginxer.MissingCertsRejection |
