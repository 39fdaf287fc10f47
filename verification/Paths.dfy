/** Where staged files live (internal/proxy/engine.go, nginx.go, haproxy.go). Paths are
    POSIX strings. */
module Paths {
  import opened Text
  import opened Model

  datatype Paths = Paths(nginxConf: string, haproxyConf: string, certsDir: string)

  const DECOY_REL := "decoy/index.html"
  const DECOY_LIVE := "/var/lib/portguard/decoy/index.html"
  const NGINX_REL := "nginx.conf"
  const HTTP_REL := "portguard/http.conf"
  const STREAM_REL := "portguard/stream.conf"
  const HAPROXY_REL := "haproxy.cfg"

  /** `posixDir`. */
  function PosixDir(p: string): string {
    var i := LastIndex(p, '/');
    if i > 0 then p[..i] else "/"
  }

  function TrimLeftSlash(s: string): string {
    if s != [] && s[0] == '/' then TrimLeftSlash(s[1..]) else s
  }

  function TrimRightSlash(s: string): string {
    if s != [] && s[|s| - 1] == '/' then TrimRightSlash(s[..|s| - 1]) else s
  }

  /** `posixJoin` of two parts, the second not empty. */
  function PosixJoin(dir: string, rest: string): string {
    var last := TrimRightSlash(TrimLeftSlash(rest));
    if dir == "" then "/" + last else "/" + TrimRightSlash(TrimLeftSlash(dir)) + "/" + last
  }

  // ---- staged and live paths ----

  /** `LivePath`: HAProxy has one file, whatever its staged name. */
  function LivePath(e: Engine, p: Paths, rel: string): string {
    match e
    case HAProxy => p.haproxyConf
    case Nginx =>
      if rel == NGINX_REL then p.nginxConf
      else if rel == DECOY_REL then DECOY_LIVE
      else PosixJoin(PosixDir(p.nginxConf), rel)
  }

  /** `StagedRel`. */
  function StagedRel(e: Engine, p: Paths, live: string): Option<string> {
    match e
    case HAProxy => if live == p.haproxyConf then Some(HAPROXY_REL) else None
    case Nginx =>
      if live == p.nginxConf then Some(NGINX_REL)
      else if live == LivePath(Nginx, p, HTTP_REL) then Some(HTTP_REL)
      else if live == LivePath(Nginx, p, STREAM_REL) then Some(STREAM_REL)
      else if live == DECOY_LIVE then Some(DECOY_REL)
      else None
  }

  /** The staged names an engine renders. */
  predicate Staged(e: Engine, rel: string) {
    match e
    case HAProxy => rel == HAPROXY_REL
    case Nginx => rel == NGINX_REL || rel == HTTP_REL || rel == STREAM_REL || rel == DECOY_REL
  }

  lemma RelsDiffer()
    ensures NGINX_REL != HTTP_REL && NGINX_REL != STREAM_REL && NGINX_REL != DECOY_REL
    ensures HTTP_REL != STREAM_REL && HTTP_REL != DECOY_REL && STREAM_REL != DECOY_REL
  {
    assert |NGINX_REL| == 10 && |HTTP_REL| == 19 && |STREAM_REL| == 21 && |DECOY_REL| == 16;
  }

  /** What `classify` recognises is put back where it came from, always. */
  lemma LiveOfStaged(e: Engine, p: Paths, live: string)
    requires StagedRel(e, p, live).Some?
    ensures Staged(e, StagedRel(e, p, live).value) && LivePath(e, p, StagedRel(e, p, live).value) == live
  {
    RelsDiffer();
  }

  /** The live paths of nginx are four different files. */
  predicate NginxPathsDiffer(p: Paths) {
    var http, stream := LivePath(Nginx, p, HTTP_REL), LivePath(Nginx, p, STREAM_REL);
    p.nginxConf != http && p.nginxConf != stream && p.nginxConf != DECOY_LIVE
    && http != stream && http != DECOY_LIVE && stream != DECOY_LIVE
  }

  /** Every staged file is recognised by its live path exactly when no two share one. */
  lemma StagedOfLiveIff(p: Paths)
    ensures (forall rel :: Staged(Nginx, rel) ==> StagedRel(Nginx, p, LivePath(Nginx, p, rel)) == Some(rel)) <==> NginxPathsDiffer(p)
  {
    RelsDiffer();
    if forall rel :: Staged(Nginx, rel) ==> StagedRel(Nginx, p, LivePath(Nginx, p, rel)) == Some(rel) {
      assert Staged(Nginx, NGINX_REL) && Staged(Nginx, HTTP_REL) && Staged(Nginx, STREAM_REL) && Staged(Nginx, DECOY_REL);
    }
  }

  /** No file belongs to both engines. */
  predicate EnginesApart(p: Paths) {
    p.haproxyConf != p.nginxConf && p.haproxyConf != LivePath(Nginx, p, HTTP_REL) && p.haproxyConf != LivePath(Nginx, p, STREAM_REL)
    && p.haproxyConf != DECOY_LIVE
  }

  /** Two staged files, of one engine or two, never land on the same live path. */
  lemma LivePathsDiffer(p: Paths, e: Engine, rel: string, f: Engine, rel': string)
    requires NginxPathsDiffer(p) && EnginesApart(p) && Staged(e, rel) && Staged(f, rel')
    requires LivePath(e, p, rel) == LivePath(f, p, rel')
    ensures e == f && rel == rel'
  {
    RelsDiffer();
  }

  // ---- backup folders ----

  /** Where a backup folder keeps a live file: below the folder, under its own path. */
  function BackupPath(folder: string, live: string): string {
    folder + live
  }

  function ForwardSlashes(s: string): string {
    seq(|s|, i requires 0 <= i < |s| => if s[i] == '\\' then '/' else s[i])
  }

  /** `relLive`. */
  function RelLive(folder: string, path: string): string {
    ForwardSlashes(TrimPrefix(path, folder))
  }

  /** A backup's path tells which live file it is a copy of. */
  lemma RelLiveInverse(folder: string, live: string)
    requires '\\' !in live
    ensures RelLive(folder, BackupPath(folder, live)) == live
  {
    var path := BackupPath(folder, live);
    assert path[..|folder|] == folder && path[|folder|..] == live;
  }
}
