/**
 Rewriting a beegfs-client.conf template for one volume. The configured keys come from a Go map, whose
 iteration order is arbitrary, and deprecated management port keys are redirected while iterating.
 */
module ClientFiles {
  import opened Wrappers
  import opened ConfigMerge
  import opened ConfigLayers
  import opened Secrets

  type Ini = map<string, string>

  const HOST_KEY := "sysMgmtdHost"
  const CLIENT_PORT := "connClientPort"
  const CLIENT_PORT_UDP := "connClientPortUDP"
  const MGMTD_PORT := "connMgmtdPort"
  const MGMTD_PORT_TCP := "connMgmtdPortTCP"
  const MGMTD_PORT_UDP := "connMgmtdPortUDP"

  /** The file being built and the replacement port remembered so far. */
  datatype Progress = Progress(ini: Ini, port: string)

  predicate Deprecated(k: string)
  {
    k == MGMTD_PORT_TCP || k == MGMTD_PORT_UDP
  }

  function VisitKey(st: Progress, k: string, v: string): (r: Option<Progress>)
    ensures r.Some? ==> r.value.ini.Keys == st.ini.Keys
  {
    if k in st.ini then Some(Progress(st.ini[k := v], st.port))
    else if Deprecated(k) && MGMTD_PORT in st.ini && (st.port == "" || st.port == v) then
      Some(Progress(st.ini[MGMTD_PORT := v], if st.port == "" then v else st.port))
    else None
  }

  function VisitAll(start: Progress, conf: Ini, order: seq<string>): (r: Option<Progress>)
    requires forall k :: k in order ==> k in conf
    ensures r.Some? ==> r.value.ini.Keys == start.ini.Keys
  {
    if order == [] then Some(start)
    else
      var last := order[|order| - 1];
      assert last in order;
      match VisitAll(start, conf, order[..|order| - 1])
      case None => None
      case Some(st) => VisitKey(st, last, conf[last])
  }

  /** The sequence lists the set, each element once. */
  ghost predicate IsOrder(order: seq<string>, keys: set<string>)
  {
    && (forall i, j :: 0 <= i < j < |order| ==> order[i] != order[j])
    && (forall k :: k in order <==> k in keys)
  }

  function Rewritten(ini: Ini, conf: Ini, order: seq<string>): (r: Option<Ini>)
    requires forall k :: k in order ==> k in conf
  {
    match VisitAll(Progress(ini, ""), conf, order) case None => None case Some(st) => Some(st.ini)
  }

  // ---- When the order shows ---------------------------------------------------------------------------

  /** A deprecated key that the template lacks and that is redirected to the key replacing it. */
  predicate Redirected(ini: Ini, conf: Ini, k: string)
  {
    Deprecated(k) && k in conf && k !in ini && MGMTD_PORT in ini
  }

  predicate HasUnknownKey(ini: Ini, conf: Ini)
  {
    exists k :: k in conf && k !in ini && !Redirected(ini, conf, k)
  }

  /** Both deprecated keys are redirected, to different ports, one of which is the empty string. */
  predicate EmptyPortClash(ini: Ini, conf: Ini)
  {
    && Redirected(ini, conf, MGMTD_PORT_TCP) && Redirected(ini, conf, MGMTD_PORT_UDP)
    && conf[MGMTD_PORT_TCP] != conf[MGMTD_PORT_UDP]
    && (conf[MGMTD_PORT_TCP] == "" || conf[MGMTD_PORT_UDP] == "")
  }

  /** The redirected keys agree with each other but not with an explicit value for the new key. */
  predicate ExplicitPortClash(ini: Ini, conf: Ini)
  {
    && MGMTD_PORT in conf
    && (exists k :: k in conf && Redirected(ini, conf, k))
    && (forall k :: k in conf && Redirected(ini, conf, k) ==> conf[k] != conf[MGMTD_PORT])
    && (Redirected(ini, conf, MGMTD_PORT_TCP) && Redirected(ini, conf, MGMTD_PORT_UDP) ==>
          conf[MGMTD_PORT_TCP] == conf[MGMTD_PORT_UDP])
  }

  predicate OrderSensitive(ini: Ini, conf: Ini)
  {
    !HasUnknownKey(ini, conf) && (EmptyPortClash(ini, conf) || ExplicitPortClash(ini, conf))
  }

  predicate Fails(ini: Ini, conf: Ini)
  {
    || HasUnknownKey(ini, conf)
    || (&& Redirected(ini, conf, MGMTD_PORT_TCP) && Redirected(ini, conf, MGMTD_PORT_UDP)
        && conf[MGMTD_PORT_TCP] != conf[MGMTD_PORT_UDP])
  }

  /** The file for any order that does not matter. */
  function FinalIni(ini: Ini, conf: Ini): (r: Ini)
    ensures r.Keys == ini.Keys
  {
    map k | k in ini ::
      if k == MGMTD_PORT && Redirected(ini, conf, MGMTD_PORT_TCP) then conf[MGMTD_PORT_TCP]
      else if k == MGMTD_PORT && Redirected(ini, conf, MGMTD_PORT_UDP) then conf[MGMTD_PORT_UDP]
      else if k in conf then conf[k] else ini[k]
  }

  // ---- What any order does ------------------------------------------------------------------------------

  /** The state after visiting a set of keys in some order. */
  ghost predicate Visited(ini: Ini, conf: Ini, seen: set<string>, st: Progress)
    requires seen <= conf.Keys
  {
    && st.ini.Keys == ini.Keys
    && (forall k :: k in seen ==> k in ini || Redirected(ini, conf, k))
    && (forall k :: k in ini && k != MGMTD_PORT ==> st.ini[k] == if k in seen then conf[k] else ini[k])
    && (forall k :: k in seen && Redirected(ini, conf, k) ==> conf[k] == st.port || conf[k] == "")
    && (st.port == "" || exists k :: k in seen && Redirected(ini, conf, k) && conf[k] == st.port)
    && (MGMTD_PORT in ini ==>
          if MGMTD_PORT !in seen && !exists k :: k in seen && Redirected(ini, conf, k)
            then st.ini[MGMTD_PORT] == ini[MGMTD_PORT]
          else exists k :: k in seen && (k == MGMTD_PORT || Redirected(ini, conf, k)) && conf[k] == st.ini[MGMTD_PORT])
  }

  ghost predicate Blocked(ini: Ini, conf: Ini, seen: set<string>)
  {
    || (exists k :: k in seen && k in conf && k !in ini && !Redirected(ini, conf, k))
    || (&& MGMTD_PORT_TCP in seen && MGMTD_PORT_UDP in seen
        && Redirected(ini, conf, MGMTD_PORT_TCP) && Redirected(ini, conf, MGMTD_PORT_UDP)
        && conf[MGMTD_PORT_TCP] != conf[MGMTD_PORT_UDP])
  }

  lemma VisitKeyVisited(ini: Ini, conf: Ini, seen: set<string>, st: Progress, k: string)
    requires seen <= conf.Keys && Visited(ini, conf, seen, st) && k in conf && k !in seen
    ensures
      match VisitKey(st, k, conf[k])
      case Some(next) => Visited(ini, conf, seen + {k}, next)
      case None => Blocked(ini, conf, seen + {k})
  {
    var now := seen + {k};
    if k in ini {
      if k == MGMTD_PORT {
        assert k in now && conf[k] == st.ini[k := conf[k]][MGMTD_PORT];
      }
    } else if Redirected(ini, conf, k) {
      assert k in now;
    }
  }

  lemma {:induction false} VisitAllVisited(ini: Ini, conf: Ini, order: seq<string>, seen: set<string>)
    requires IsOrder(order, seen) && seen <= conf.Keys
    ensures
      match VisitAll(Progress(ini, ""), conf, order)
      case Some(st) => Visited(ini, conf, seen, st)
      case None => Blocked(ini, conf, seen)
  {
    if order != [] {
      var n := |order| - 1;
      var last := order[n];
      OrderFront(order, seen);
      VisitAllVisited(ini, conf, order[..n], seen - {last});
      var before := VisitAll(Progress(ini, ""), conf, order[..n]);
      assert (seen - {last}) + {last} == seen;
      if before.Some? {
        VisitKeyVisited(ini, conf, seen - {last}, before.value, last);
      } else {
        BlockedMore(ini, conf, seen - {last}, seen);
      }
    }
  }

  lemma OrderFront(order: seq<string>, seen: set<string>)
    requires IsOrder(order, seen) && order != []
    ensures
      var n := |order| - 1;
      order[n] in seen && IsOrder(order[..n], seen - {order[n]})
  {
    var n := |order| - 1;
    var last := order[n];
    assert last in order && order == order[..n] + [last];
    forall k ensures k in order[..n] <==> k in seen - {last} {
      if k in order[..n] {
        var i :| 0 <= i < n && order[..n][i] == k;
        assert order[i] != order[n];
      }
    }
  }

  lemma BlockedMore(ini: Ini, conf: Ini, seen: set<string>, more: set<string>)
    requires Blocked(ini, conf, seen) && seen <= more
    ensures Blocked(ini, conf, more)
  {
    if k :| k in seen && k in conf && k !in ini && !Redirected(ini, conf, k) {
      assert k in more;
    }
  }

  lemma VisitedKnown(ini: Ini, conf: Ini, st: Progress)
    requires Visited(ini, conf, conf.Keys, st) && !OrderSensitive(ini, conf)
    ensures !Fails(ini, conf)
  {
    assert !HasUnknownKey(ini, conf);
  }

  lemma VisitedPort(ini: Ini, conf: Ini, st: Progress)
    requires Visited(ini, conf, conf.Keys, st) && !OrderSensitive(ini, conf) && MGMTD_PORT in ini
    ensures st.ini[MGMTD_PORT] == FinalIni(ini, conf)[MGMTD_PORT]
  {
    VisitedKnown(ini, conf, st);
    if MGMTD_PORT in conf || exists k :: k in conf && Redirected(ini, conf, k) {
      var k :| k in conf && (k == MGMTD_PORT || Redirected(ini, conf, k)) && conf[k] == st.ini[MGMTD_PORT];
      PortAgrees(ini, conf, k);
    }
  }

  lemma VisitedEverything(ini: Ini, conf: Ini, st: Progress)
    requires Visited(ini, conf, conf.Keys, st) && !OrderSensitive(ini, conf)
    ensures st.ini == FinalIni(ini, conf)
  {
    if MGMTD_PORT in ini {
      VisitedPort(ini, conf, st);
    }
    forall k | k in ini ensures st.ini[k] == FinalIni(ini, conf)[k] {
    }
  }

  lemma OrderDoesNotShow(ini: Ini, conf: Ini, order: seq<string>)
    requires IsOrder(order, conf.Keys) && !OrderSensitive(ini, conf)
    ensures Rewritten(ini, conf, order) == if Fails(ini, conf) then None else Some(FinalIni(ini, conf))
  {
    VisitAllVisited(ini, conf, order, conf.Keys);
    var r := VisitAll(Progress(ini, ""), conf, order);
    if r.Some? {
      VisitedKnown(ini, conf, r.value);
      VisitedEverything(ini, conf, r.value);
    }
  }

  lemma PortAgrees(ini: Ini, conf: Ini, k: string)
    requires MGMTD_PORT in ini && k in conf && (k == MGMTD_PORT || Redirected(ini, conf, k))
    requires !OrderSensitive(ini, conf) && !HasUnknownKey(ini, conf) && !Fails(ini, conf)
    ensures conf[k] == FinalIni(ini, conf)[MGMTD_PORT]
  {
    if k == MGMTD_PORT && (exists d :: d in conf && Redirected(ini, conf, d)) {
      var d :| d in conf && Redirected(ini, conf, d);
      assert !ExplicitPortClash(ini, conf);
    }
  }

  // ---- Two orders that disagree -------------------------------------------------------------------------

  ghost function Listing(s: set<string>): (r: seq<string>)
    ensures IsOrder(r, s)
  {
    if s == {} then [] else var x :| x in s; Listing(s - {x}) + [x]
  }

  /** The order lists these keys, and visiting them gets as far as this. */
  ghost predicate Reaches(ini: Ini, conf: Ini, order: seq<string>, keys: set<string>, st: Progress)
  {
    keys <= conf.Keys && IsOrder(order, keys) && VisitAll(Progress(ini, ""), conf, order) == Some(st)
  }

  lemma ReachesNext(ini: Ini, conf: Ini, order: seq<string>, keys: set<string>, st: Progress, k: string)
    requires Reaches(ini, conf, order, keys, st) && k in conf && k !in keys
    ensures IsOrder(order + [k], keys + {k}) && keys + {k} <= conf.Keys
    ensures VisitAll(Progress(ini, ""), conf, order + [k]) == VisitKey(st, k, conf[k])
  {
    assert (order + [k])[..|order|] == order;
  }

  function VisitTwo(conf: Ini, st: Progress, a: string, b: string): (r: Option<Ini>)
    requires a in conf && b in conf
  {
    match VisitKey(st, a, conf[a])
    case None => None
    case Some(mid) => (match VisitKey(mid, b, conf[b]) case None => None case Some(end) => Some(end.ini))
  }

  lemma TwoKeysLast(ini: Ini, conf: Ini, order: seq<string>, keys: set<string>, st: Progress, a: string, b: string)
    requires Reaches(ini, conf, order, keys, st) && a in conf && b in conf
    requires a != b && a !in keys && b !in keys && keys + {a, b} == conf.Keys
    ensures IsOrder(order + [a] + [b], conf.Keys)
    ensures Rewritten(ini, conf, order + [a] + [b]) == VisitTwo(conf, st, a, b)
  {
    OrderGrows(order, keys, a);
    OrderGrows(order + [a], keys + {a}, b);
    assert keys + {a} + {b} == conf.Keys;
    VisitsTwo(ini, conf, order, st, a, b);
  }

  lemma OrderGrows(order: seq<string>, keys: set<string>, k: string)
    requires IsOrder(order, keys) && k !in keys
    ensures IsOrder(order + [k], keys + {k})
  {
  }

  lemma VisitsTwo(ini: Ini, conf: Ini, order: seq<string>, st: Progress, a: string, b: string)
    requires (forall k :: k in order ==> k in conf) && a in conf && b in conf
    requires VisitAll(Progress(ini, ""), conf, order) == Some(st)
    ensures Rewritten(ini, conf, order + [a] + [b]) == VisitTwo(conf, st, a, b)
  {
    VisitsNext(ini, conf, order, a);
    VisitsNext(ini, conf, order + [a], b);
  }

  lemma VisitsNext(ini: Ini, conf: Ini, order: seq<string>, k: string)
    requires (forall x :: x in order ==> x in conf) && k in conf
    ensures
      VisitAll(Progress(ini, ""), conf, order + [k])
      == match VisitAll(Progress(ini, ""), conf, order) { case None => None case Some(st) => VisitKey(st, k, conf[k]) }
  {
    assert (order + [k])[..|order|] == order;
  }

  /** Visit everything else first, in any order; then the file is complete except for the management port. */
  lemma OtherKeysFirst(ini: Ini, conf: Ini, a: string, b: string)
    returns (order: seq<string>, keys: set<string>, st: Progress)
    requires !HasUnknownKey(ini, conf) && MGMTD_PORT in ini && a in conf && b in conf && a != b
    requires Redirected(ini, conf, a) && (b == MGMTD_PORT || Redirected(ini, conf, b))
    requires forall k :: k in conf && Redirected(ini, conf, k) && k != a && k != b ==> conf[k] == conf[a]
    ensures Reaches(ini, conf, order, keys, st) && keys == conf.Keys - {a, b}
    ensures st.port == "" || st.port == conf[a]
    ensures b != MGMTD_PORT ==> st.port == ""
  {
    keys := conf.Keys - {a, b};
    order := Listing(keys);
    VisitAllVisited(ini, conf, order, keys);
    assert !Blocked(ini, conf, keys);
    st := VisitAll(Progress(ini, ""), conf, order).value;
  }

  lemma EmptyPortClashShows(ini: Ini, conf: Ini, empty: string, other: string) returns (p: seq<string>, q: seq<string>)
    requires !HasUnknownKey(ini, conf) && Redirected(ini, conf, empty) && Redirected(ini, conf, other)
    requires empty != other && conf[empty] == "" && conf[other] != ""
    ensures IsOrder(p, conf.Keys) && IsOrder(q, conf.Keys)
    ensures Rewritten(ini, conf, p).Some? && Rewritten(ini, conf, q).None?
  {
    var order, keys, st := OtherKeysFirst(ini, conf, empty, other);
    assert keys + {empty, other} == conf.Keys == keys + {other, empty};
    TwoKeysLast(ini, conf, order, keys, st, empty, other);
    TwoKeysLast(ini, conf, order, keys, st, other, empty);
    p, q := order + [empty] + [other], order + [other] + [empty];
  }

  lemma WhoeverIsLastWins(ini: Ini, conf: Ini, st: Progress, k: string)
    requires Redirected(ini, conf, k) && MGMTD_PORT in conf && st.ini.Keys == ini.Keys
    requires st.port == "" || st.port == conf[k]
    ensures
      var before, after := VisitTwo(conf, st, k, MGMTD_PORT), VisitTwo(conf, st, MGMTD_PORT, k);
      && before.Some? && MGMTD_PORT in before.value && before.value[MGMTD_PORT] == conf[MGMTD_PORT]
      && after.Some? && MGMTD_PORT in after.value && after.value[MGMTD_PORT] == conf[k]
  {
  }

  /** Visit a redirected key just before or just after the explicit one. */
  lemma ExplicitPortClashShows(ini: Ini, conf: Ini) returns (p: seq<string>, q: seq<string>)
    requires !HasUnknownKey(ini, conf) && ExplicitPortClash(ini, conf)
    ensures IsOrder(p, conf.Keys) && IsOrder(q, conf.Keys)
    ensures Rewritten(ini, conf, p) != Rewritten(ini, conf, q)
  {
    var k :| k in conf && Redirected(ini, conf, k);
    assert k != MGMTD_PORT;
    var order, keys, st := OtherKeysFirst(ini, conf, k, MGMTD_PORT);
    assert keys + {k, MGMTD_PORT} == conf.Keys == keys + {MGMTD_PORT, k};
    TwoKeysLast(ini, conf, order, keys, st, k, MGMTD_PORT);
    TwoKeysLast(ini, conf, order, keys, st, MGMTD_PORT, k);
    p, q := order + [k] + [MGMTD_PORT], order + [MGMTD_PORT] + [k];
    WhoeverIsLastWins(ini, conf, st, k);
  }

  /** Every order gives the same outcome exactly when the configured ports do not clash in one of two ways. */
  lemma OrderIndependentExactly(ini: Ini, conf: Ini)
    ensures (forall p: seq<string>, q: seq<string> :: IsOrder(p, conf.Keys) && IsOrder(q, conf.Keys) ==>
               Rewritten(ini, conf, p) == Rewritten(ini, conf, q))
       <==> !OrderSensitive(ini, conf)
  {
    if OrderSensitive(ini, conf) {
      var p, q;
      if EmptyPortClash(ini, conf) {
        if conf[MGMTD_PORT_TCP] == "" {
          p, q := EmptyPortClashShows(ini, conf, MGMTD_PORT_TCP, MGMTD_PORT_UDP);
        } else {
          p, q := EmptyPortClashShows(ini, conf, MGMTD_PORT_UDP, MGMTD_PORT_TCP);
        }
      } else {
        p, q := ExplicitPortClashShows(ini, conf);
      }
      assert Rewritten(ini, conf, p) != Rewritten(ini, conf, q);
    } else {
      forall p: seq<string>, q: seq<string> | IsOrder(p, conf.Keys) && IsOrder(q, conf.Keys)
        ensures Rewritten(ini, conf, p) == Rewritten(ini, conf, q)
      {
        OrderDoesNotShow(ini, conf, p);
        OrderDoesNotShow(ini, conf, q);
      }
    }
  }

  // ---- The whole file ------------------------------------------------------------------------------------

  /** The key the ephemeral client port goes to: the BeeGFS 8 name if the template has it. */
  function ClientPortKey(template: Ini): (r: string)
  {
    if CLIENT_PORT in template then CLIENT_PORT else CLIENT_PORT_UDP
  }

  function WithHostAndPort(template: Ini, host: string, port: string): (r: Option<Ini>)
    ensures r.Some? ==> r.value.Keys == template.Keys
  {
    if HOST_KEY in template && ClientPortKey(template) in template then
      Some(template[HOST_KEY := host][ClientPortKey(template) := port])
    else None
  }

  function WithFile<T>(ini: Option<Ini>, contents: seq<T>, k: string, path: string): (r: Option<Ini>)
    ensures r.Some? ==> ini.Some? && r.value.Keys == ini.value.Keys
  {
    if ini.None? || |contents| == 0 then ini
    else if k in ini.value then Some(ini.value[k := path]) else None
  }

  function WithFiles(ini: Option<Ini>, o: Options, dir: string): (r: Option<Ini>)
    ensures r.Some? ==> ini.Some? && r.value.Keys == ini.value.Keys
  {
    var interfaces := WithFile(ini, o.connInterfaces, "connInterfacesFile", dir + "/" + "connInterfacesFile");
    var auth := WithFile(interfaces, o.connAuth, "connAuthFile", dir + "/" + "connAuthFile");
    var net := WithFile(auth, o.connNetFilter, "connNetFilterFile", dir + "/" + "connNetFilterFile");
    var tcp := WithFile(net, o.connTcpOnlyFilter, "connTcpOnlyFilterFile", dir + "/" + "connTcpOnlyFilterFile");
    WithFile(tcp, o.connRDMAInterfaces, "connRDMAInterfacesFile", dir + "/" + "connRDMAInterfacesFile")
  }

  function Written(template: Ini, host: string, port: string, dir: string, o: Options, conf: Ini,
      order: seq<string>): (r: Option<Ini>)
    requires forall k :: k in order ==> k in conf
    ensures r.Some? ==> r.value.Keys == template.Keys
  {
    match WithHostAndPort(template, host, port)
    case None => None
    case Some(ini) => WithFiles(Rewritten(ini, conf, order), o, dir)
  }

  /** The loop over the configured keys, in whatever order the map yields them. */
  method RewriteKeys(template: Ini, conf: Ini) returns (result: Option<Ini>, ghost order: seq<string>)
    ensures IsOrder(order, conf.Keys) && result == Rewritten(template, conf, order)
    ensures !OrderSensitive(template, conf) ==>
      result == if Fails(template, conf) then None else Some(FinalIni(template, conf))
  {
    var ini, port := template, "";
    var keys := conf.Keys;
    order := [];
    while keys != {}
      invariant keys <= conf.Keys && IsOrder(order, conf.Keys - keys)
      invariant ini.Keys == template.Keys
      invariant VisitAll(Progress(template, ""), conf, order) == Some(Progress(ini, port))
      decreases keys
    {
      var k :| k in keys;
      assert (order + [k])[..|order|] == order;
      order := order + [k];
      keys := keys - {k};
      if k in ini {
        ini := ini[k := conf[k]];
      } else if (k == MGMTD_PORT_TCP || k == MGMTD_PORT_UDP) && MGMTD_PORT in ini && (port == "" || port == conf[k]) {
        ini := ini[MGMTD_PORT := conf[k]];
        port := if port == "" then conf[k] else port;
      } else {
        order := FailureStands(template, conf, order, keys);
        if !OrderSensitive(template, conf) {
          OrderDoesNotShow(template, conf, order);
        }
        return None, order;
      }
    }
    result := Some(ini);
    if !OrderSensitive(template, conf) {
      OrderDoesNotShow(template, conf, order);
    }
  }

  /** Once a key fails, the keys not visited any more could come in any order. */
  lemma {:induction false} FailureStands(ini: Ini, conf: Ini, order: seq<string>, left: set<string>)
    returns (full: seq<string>)
    requires left <= conf.Keys && IsOrder(order, conf.Keys - left)
    requires VisitAll(Progress(ini, ""), conf, order).None?
    ensures IsOrder(full, conf.Keys) && Rewritten(ini, conf, full).None?
    decreases left
  {
    if left == {} {
      full := order;
    } else {
      var k :| k in left;
      assert (order + [k])[..|order|] == order;
      full := FailureStands(ini, conf, order + [k], left - {k});
    }
  }

  /** The entries of a list, one per line. */
  function Lines(list: seq<string>): (r: string)
  {
    if list == [] then "" else list[0] + "\n" + Lines(list[1..])
  }

  /** Every entry is followed by a newline, the last one too. */
  lemma {:induction false} LinesConcat(a: seq<string>, b: seq<string>, x: string)
    ensures Lines(a + b) == Lines(a) + Lines(b) && Lines([x]) == x + "\n" && Lines([]) == ""
  {
    assert [x][1..] == [];
    if a == [] {
      assert a + b == b;
    } else {
      assert (a + b)[1..] == a[1..] + b;
      LinesConcat(a[1..], b, x);
    }
  }

  /** A file of this name is there exactly if its option is set, and then holds these contents. */
  predicate Holds<T>(files: map<string, string>, name: string, option: seq<T>, contents: string)
  {
    (name in files <==> |option| != 0) && (name in files ==> files[name] == contents)
  }

  /** The files beside beegfs-client.conf. Secrets are written as they are. */
  predicate SideFiles(files: map<string, string>, o: Options)
  {
    && Holds(files, "connInterfacesFile", o.connInterfaces, Lines(o.connInterfaces))
    && Holds(files, "connAuthFile", o.connAuth, o.connAuth)
    && Holds(files, "cert.pem", o.tlsCert, o.tlsCert)
    && Holds(files, "connNetFilterFile", o.connNetFilter, Lines(o.connNetFilter))
    && Holds(files, "connTcpOnlyFilterFile", o.connTcpOnlyFilter, Lines(o.connTcpOnlyFilter))
    && Holds(files, "connRDMAInterfacesFile", o.connRDMAInterfaces, Lines(o.connRDMAInterfaces))
  }

  /** The file for one option is written if the option is set. */
  method WriteSideFile<T>(files: map<string, string>, name: string, option: seq<T>, contents: string)
    returns (r: map<string, string>)
    requires name !in files
    ensures Holds(r, name, option, contents)
    ensures r.Keys <= files.Keys + {name} && forall f :: f != name ==>
      (f in r <==> f in files) && (f in files ==> r[f] == files[f])
  {
    r := if |option| != 0 then files[name := contents] else files;
  }

  method WriteSideFiles(o: Options) returns (files: map<string, string>)
    ensures SideFiles(files, o)
  {
    files := WriteSideFile(map[], "connInterfacesFile", o.connInterfaces, Lines(o.connInterfaces));
    files := WriteSideFile(files, "connAuthFile", o.connAuth, o.connAuth);
    files := WriteSideFile(files, "cert.pem", o.tlsCert, o.tlsCert);
    files := WriteSideFile(files, "connNetFilterFile", o.connNetFilter, Lines(o.connNetFilter));
    files := WriteSideFile(files, "connTcpOnlyFilterFile", o.connTcpOnlyFilter, Lines(o.connTcpOnlyFilter));
    files := WriteSideFile(files, "connRDMAInterfacesFile", o.connRDMAInterfaces, Lines(o.connRDMAInterfaces));
  }

  /** The options that go to files of their own, by the key that names the file. */
  predicate IsSet(o: Options, k: string)
  {
    || (k == "connInterfacesFile" && o.connInterfaces != []) || (k == "connAuthFile" && o.connAuth != "")
    || (k == "connNetFilterFile" && o.connNetFilter != [])
    || (k == "connTcpOnlyFilterFile" && o.connTcpOnlyFilter != [])
    || (k == "connRDMAInterfacesFile" && o.connRDMAInterfaces != [])
  }

  /** The key of every option that is set names its file, and every other key is as it was. */
  ghost predicate PointsToFiles(before: Ini, after: Ini, o: Options, dir: string)
  {
    && after.Keys == before.Keys
    && forall k :: k in before ==> after[k] == if IsSet(o, k) then dir + "/" + k else before[k]
  }

  /** These keys name their files, and every other key is as it was. */
  predicate Named(before: Ini, after: Ini, keys: set<string>, dir: string)
  {
    after.Keys == before.Keys && forall k :: k in before ==> after[k] == if k in keys then dir + "/" + k else before[k]
  }

  function With<T>(keys: set<string>, contents: seq<T>, k: string): (r: set<string>)
  {
    if |contents| != 0 then keys + {k} else keys
  }

  lemma WithFileNames<T>(before: Ini, ini: Option<Ini>, keys: set<string>, contents: seq<T>, k: string, dir: string)
    requires ini.Some? ==> Named(before, ini.value, keys, dir)
    ensures
      var r := WithFile(ini, contents, k, dir + "/" + k);
      && (r.Some? <==> ini.Some? && (|contents| != 0 ==> k in before))
      && (r.Some? ==> Named(before, r.value, With(keys, contents, k), dir))
  {
  }

  /** The keys of the options that are set. */
  function FileKeys(o: Options): (r: set<string>)
  {
    var a := With({}, o.connInterfaces, "connInterfacesFile");
    var b := With(a, o.connAuth, "connAuthFile");
    var c := With(b, o.connNetFilter, "connNetFilterFile");
    var d := With(c, o.connTcpOnlyFilter, "connTcpOnlyFilterFile");
    With(d, o.connRDMAInterfaces, "connRDMAInterfacesFile")
  }

  lemma FilesNameKeys(ini: Ini, o: Options, dir: string)
    ensures
      var r := WithFiles(Some(ini), o, dir);
      (r.Some? <==> SetKeys(o, ini)) && (r.Some? ==> Named(ini, r.value, FileKeys(o), dir))
  {
    var start := Some(ini);
    var a := WithFile(start, o.connInterfaces, "connInterfacesFile", dir + "/" + "connInterfacesFile");
    WithFileNames(ini, start, {}, o.connInterfaces, "connInterfacesFile", dir);
    var ka := With({}, o.connInterfaces, "connInterfacesFile");
    var b := WithFile(a, o.connAuth, "connAuthFile", dir + "/" + "connAuthFile");
    WithFileNames(ini, a, ka, o.connAuth, "connAuthFile", dir);
    var kb := With(ka, o.connAuth, "connAuthFile");
    var c := WithFile(b, o.connNetFilter, "connNetFilterFile", dir + "/" + "connNetFilterFile");
    WithFileNames(ini, b, kb, o.connNetFilter, "connNetFilterFile", dir);
    var kc := With(kb, o.connNetFilter, "connNetFilterFile");
    var d := WithFile(c, o.connTcpOnlyFilter, "connTcpOnlyFilterFile", dir + "/" + "connTcpOnlyFilterFile");
    WithFileNames(ini, c, kc, o.connTcpOnlyFilter, "connTcpOnlyFilterFile", dir);
    var kd := With(kc, o.connTcpOnlyFilter, "connTcpOnlyFilterFile");
    WithFileNames(ini, d, kd, o.connRDMAInterfaces, "connRDMAInterfacesFile", dir);
  }

  /** The five steps together. They fail exactly if the key of an option that is set is missing. */
  lemma FilesAreNamed(ini: Ini, o: Options, dir: string)
    ensures
      var r := WithFiles(Some(ini), o, dir);
      && (r.Some? <==> forall k :: IsSet(o, k) ==> k in ini)
      && (r.Some? ==> PointsToFiles(ini, r.value, o, dir))
  {
    FilesNameKeys(ini, o, dir);
    SetKeysAre(o, ini);
    assert forall k :: k in FileKeys(o) <==> IsSet(o, k);
  }

  predicate SetKeys(o: Options, ini: Ini)
  {
    && (o.connInterfaces != [] ==> "connInterfacesFile" in ini) && (o.connAuth != "" ==> "connAuthFile" in ini)
    && (o.connNetFilter != [] ==> "connNetFilterFile" in ini)
    && (o.connTcpOnlyFilter != [] ==> "connTcpOnlyFilterFile" in ini)
    && (o.connRDMAInterfaces != [] ==> "connRDMAInterfacesFile" in ini)
  }

  lemma SetKeysAre(o: Options, ini: Ini)
    ensures SetKeys(o, ini) <==> forall k :: IsSet(o, k) ==> k in ini
  {
    if forall k :: IsSet(o, k) ==> k in ini {
      assert o.connInterfaces != [] ==> IsSet(o, "connInterfacesFile");
      assert o.connAuth != "" ==> IsSet(o, "connAuthFile");
      assert o.connNetFilter != [] ==> IsSet(o, "connNetFilterFile");
      assert o.connTcpOnlyFilter != [] ==> IsSet(o, "connTcpOnlyFilterFile");
      assert o.connRDMAInterfaces != [] ==> IsSet(o, "connRDMAInterfacesFile");
    }
  }

  /**
   The written file has exactly the template's keys, does not depend on the visiting order unless the ports
   clash, and comes with the files that its options ask for.
   */
  method WriteClientFile(template: Ini, host: string, port: string, dir: string, o: Options, conf: Ini)
    returns (result: Option<Ini>, files: map<string, string>, ghost order: seq<string>)
    ensures IsOrder(order, conf.Keys) && result == Written(template, host, port, dir, o, conf, order)
    ensures result.Some? ==> result.value.Keys == template.Keys && SideFiles(files, o)
    ensures
      var ini := WithHostAndPort(template, host, port);
      var rewritten := if ini.Some? then Rewritten(ini.value, conf, order) else None;
      && (result.Some? <==> rewritten.Some? && forall k :: IsSet(o, k) ==> k in template)
      && (result.Some? ==> PointsToFiles(rewritten.value, result.value, o, dir))
    ensures
      var ini := WithHostAndPort(template, host, port);
      ini.Some? && !OrderSensitive(ini.value, conf) ==>
        result == if Fails(ini.value, conf) then None else WithFiles(Some(FinalIni(ini.value, conf)), o, dir)
  {
    order, files := Listing(conf.Keys), map[];
    result := WithHostAndPort(template, host, port);
    if result.Some? {
      result, order := RewriteKeys(result.value, conf);
      if result.Some? {
        FilesAreNamed(result.value, o, dir);
      }
      result := WithFiles(result, o, dir);
      if result.Some? {
        files := WriteSideFiles(o);
      }
    }
  }

  // ---- No-effect options, end to end -----------------------------------------------------------------------

  lemma FilesLeaveKey(ini: Option<Ini>, o: Options, dir: string, k: string)
    requires k in NO_EFFECT_KEYS && WithFiles(ini, o, dir).Some? && k in ini.value
    ensures k in WithFiles(ini, o, dir).value && WithFiles(ini, o, dir).value[k] == ini.value[k]
  {
    NotAFileKey(k);
    var interfaces := WithFile(ini, o.connInterfaces, "connInterfacesFile", dir + "/" + "connInterfacesFile");
    FileLeavesKey(ini, o.connInterfaces, "connInterfacesFile", dir + "/" + "connInterfacesFile", k);
    var auth := WithFile(interfaces, o.connAuth, "connAuthFile", dir + "/" + "connAuthFile");
    FileLeavesKey(interfaces, o.connAuth, "connAuthFile", dir + "/" + "connAuthFile", k);
    var net := WithFile(auth, o.connNetFilter, "connNetFilterFile", dir + "/" + "connNetFilterFile");
    FileLeavesKey(auth, o.connNetFilter, "connNetFilterFile", dir + "/" + "connNetFilterFile", k);
    var tcp := WithFile(net, o.connTcpOnlyFilter, "connTcpOnlyFilterFile", dir + "/" + "connTcpOnlyFilterFile");
    FileLeavesKey(net, o.connTcpOnlyFilter, "connTcpOnlyFilterFile", dir + "/" + "connTcpOnlyFilterFile", k);
    FileLeavesKey(tcp, o.connRDMAInterfaces, "connRDMAInterfacesFile", dir + "/" + "connRDMAInterfacesFile", k);
  }

  lemma FileLeavesKey<T>(ini: Option<Ini>, contents: seq<T>, name: string, path: string, k: string)
    requires WithFile(ini, contents, name, path).Some? && k != name
    ensures
      var r := WithFile(ini, contents, name, path).value;
      (k in r <==> k in ini.value) && (k in r ==> r[k] == ini.value[k])
  {
  }

  lemma NotAFileKey(k: string)
    requires k in NO_EFFECT_KEYS
    ensures k != "connInterfacesFile" && k != "connAuthFile" && k != "connNetFilterFile"
    ensures k != "connTcpOnlyFilterFile" && k != "connRDMAInterfacesFile"
  {
  }

  /** Keys that are neither configured nor owned by a file keep what they had. */
  lemma UntouchedKey(ini: Ini, o: Options, dir: string, conf: Ini, order: seq<string>, k: string)
    requires IsOrder(order, conf.Keys) && k in ini && k !in conf && k in NO_EFFECT_KEYS
    requires WithFiles(Rewritten(ini, conf, order), o, dir).Some?
    ensures
      var written := WithFiles(Rewritten(ini, conf, order), o, dir).value;
      k in written && written[k] == ini[k]
  {
    VisitAllVisited(ini, conf, order, conf.Keys);
    assert k != MGMTD_PORT;
    FilesLeaveKey(Rewritten(ini, conf, order), o, dir, k);
  }

  /** Neither injecting secrets nor any layer can bring a no-effect key back. */
  lemma SquashedHasNoEffectKeys(raw: RawConfig, nodeID: string, valid: Plugin -> bool, host: string,
                                auths: seq<Secret>, certs: seq<Secret>)
    requires Parse(raw, nodeID, valid).Parsed?
    ensures
      var p := InjectPlugin(TlsCert, InjectPlugin(ConnAuth, Parse(raw, nodeID, valid).plugin, auths), certs);
      Squash(host, p).conf.value.Keys !! NO_EFFECT_KEYS
  {
    var p := Parse(raw, nodeID, valid).plugin;
    var acc := Overwritten(NEW_CONFIG, p.defaults);
    InjectAllChangesOnlySecret(ConnAuth, acc, p.fileSystems, auths, host);
    InjectAllChangesOnlySecret(TlsCert, acc, InjectAll(ConnAuth, p.fileSystems, auths), certs, host);
    EffectiveConfigIsFlatFold(raw, nodeID, valid, host);
    var injected := InjectPlugin(TlsCert, InjectPlugin(ConnAuth, p, auths), certs);
    assert Squash(host, injected).conf == Squash(host, p).conf by {
      assert Blank(TlsCert, Squash(host, injected)).conf == Squash(host, injected).conf;
    }
    assert Value(Squash(host, p)).clientConf == Squash(host, p).conf.value;
  }

  /**
   Whatever a configuration file says about the options that have no effect, the written file names the
   volume's own host and the port chosen for it, and leaves the rest of them as the template has them.
   */
  lemma NoEffectOptionsHaveNoEffect(raw: RawConfig, nodeID: string, valid: Plugin -> bool, host: string,
                                    auths: seq<Secret>, certs: seq<Secret>,
                                    template: Ini, port: string, dir: string, order: seq<string>)
    requires Parse(raw, nodeID, valid).Parsed?
    requires
      var p := InjectPlugin(TlsCert, InjectPlugin(ConnAuth, Parse(raw, nodeID, valid).plugin, auths), certs);
      var c := Squash(host, p);
      IsOrder(order, c.conf.value.Keys) && Written(template, host, port, dir, c.options, c.conf.value, order).Some?
    ensures
      var p := InjectPlugin(TlsCert, InjectPlugin(ConnAuth, Parse(raw, nodeID, valid).plugin, auths), certs);
      var c := Squash(host, p);
      var written := Written(template, host, port, dir, c.options, c.conf.value, order).value;
      && HOST_KEY in written && written[HOST_KEY] == host
      && ClientPortKey(template) in written && written[ClientPortKey(template)] == port
      && (forall k :: k in NO_EFFECT_KEYS && k in template && k != HOST_KEY && k != ClientPortKey(template) ==>
            k in written && written[k] == template[k])
      && ("sysMgmtdHost" in written && written["sysMgmtdHost"] == host)
      && ("connClientPort" in template ==> "connClientPort" in written && written["connClientPort"] == port)
      && ("connClientPort" !in template ==> "connClientPortUDP" in written && written["connClientPortUDP"] == port)
      && ("connPortShift" in template ==>
            "connPortShift" in written && written["connPortShift"] == template["connPortShift"])
  {
    SquashedHasNoEffectKeys(raw, nodeID, valid, host, auths, certs);
    var p := InjectPlugin(TlsCert, InjectPlugin(ConnAuth, Parse(raw, nodeID, valid).plugin, auths), certs);
    var c := Squash(host, p);
    var ini := WithHostAndPort(template, host, port).value;
    forall k | k in NO_EFFECT_KEYS && k in ini
      ensures
        var written := Written(template, host, port, dir, c.options, c.conf.value, order).value;
        k in written && written[k] == ini[k]
    {
      UntouchedKey(ini, c.options, dir, c.conf.value, order, k);
    }
  }
}
