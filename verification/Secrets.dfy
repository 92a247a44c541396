/**
 Connection secrets and TLS certificates are injected into the file system entries after the
 configuration file has been parsed: each goes to the first entry of its host, or to a new entry.
 */
module Secrets {
  import opened Wrappers
  import opened ConfigMerge
  import opened ConfigLayers
  import opened ConfigHeap

  datatype Kind = ConnAuth | TlsCert

  datatype Secret = Secret(host: string, text: string)

  /** An entry of the connAuth file. */
  datatype Encoded = Encoded(host: string, text: string, encoding: string)

  function Decode(e: Encoded, base64: string -> Option<string>): (r: Option<Secret>)
  {
    if e.encoding == "raw" || e.encoding == "" then Some(Secret(e.host, e.text + "\n"))
    else if e.encoding == "base64" then
      (match base64(e.text) case Some(text) => Some(Secret(e.host, text)) case None => None)
    else None
  }

  function SecretOf(kind: Kind, o: Options): (r: string)
  {
    match kind case ConnAuth => o.connAuth case TlsCert => o.tlsCert
  }

  function WithSecret(kind: Kind, o: Options, text: string): (r: Options)
    ensures SecretOf(kind, r) == text
    ensures forall other: Kind :: other != kind ==> SecretOf(other, r) == SecretOf(other, o)
  {
    match kind case ConnAuth => o.(connAuth := text) case TlsCert => o.(tlsCert := text)
  }

  /** Position of the first entry of a host, or the length of the list. */
  function FirstOf(entries: seq<FsEntry>, host: string): (r: nat)
    ensures r <= |entries|
    ensures r < |entries| ==> entries[r].host == host
    ensures forall k :: 0 <= k < r ==> entries[k].host != host
  {
    if entries == [] || entries[0].host == host then 0 else 1 + FirstOf(entries[1..], host)
  }

  function Inject(kind: Kind, entries: seq<FsEntry>, s: Secret): (r: seq<FsEntry>)
  {
    var i := FirstOf(entries, s.host);
    if i < |entries| then
      entries[i := FsEntry(s.host, GoConfig(WithSecret(kind, entries[i].config.options, s.text),
          entries[i].config.conf))]
    else entries + [FsEntry(s.host, GoConfig(WithSecret(kind, NO_OPTIONS, s.text), None))]
  }

  function InjectAll(kind: Kind, entries: seq<FsEntry>, secrets: seq<Secret>): (r: seq<FsEntry>)
  {
    if secrets == [] then entries
    else Inject(kind, InjectAll(kind, entries, secrets[..|secrets| - 1]), secrets[|secrets| - 1])
  }

  /** The secret listed last for a host, or nothing. */
  function LastSecret(secrets: seq<Secret>, host: string): (r: string)
  {
    if secrets == [] then ""
    else if secrets[|secrets| - 1].host == host then secrets[|secrets| - 1].text
    else LastSecret(secrets[..|secrets| - 1], host)
  }

  function InjectPlugin(kind: Kind, p: Plugin, secrets: seq<Secret>): (r: Plugin)
  {
    p.(fileSystems := InjectAll(kind, p.fileSystems, secrets))
  }

  /** A configuration file cannot set a secret. */
  predicate NoSecrets(kind: Kind, p: Plugin)
  {
    SecretOf(kind, p.defaults.options) == ""
    && forall i :: 0 <= i < |p.fileSystems| ==> SecretOf(kind, p.fileSystems[i].config.options) == ""
  }

  // ---- Last writer wins -------------------------------------------------------------------------------

  /** Only the first entry of a host ever holds a secret. */
  predicate SecretsAtFirst(kind: Kind, entries: seq<FsEntry>)
  {
    forall i :: 0 <= i < |entries| && SecretOf(kind, entries[i].config.options) != "" ==>
      FirstOf(entries, entries[i].host) == i
  }

  function SecretAt(kind: Kind, entries: seq<FsEntry>, host: string): (r: string)
  {
    var i := FirstOf(entries, host);
    if i < |entries| then SecretOf(kind, entries[i].config.options) else ""
  }

  lemma FirstOfIs(entries: seq<FsEntry>, host: string, i: nat)
    requires i <= |entries| && (i < |entries| ==> entries[i].host == host)
    requires forall k :: 0 <= k < i ==> entries[k].host != host
    ensures FirstOf(entries, host) == i
  {
  }

  /** Where a host is first listed, once another entry is appended. */
  function FirstWith(init: seq<FsEntry>, last: FsEntry, host: string): (i: nat)
  {
    var n := |init|;
    if FirstOf(init, host) < n then FirstOf(init, host) else if last.host == host then n else n + 1
  }

  lemma FirstOfSnoc(entries: seq<FsEntry>, host: string)
    requires entries != []
    ensures
      var n := |entries| - 1;
      FirstOf(entries, host) == FirstWith(entries[..n], entries[n], host)
  {
    var n := |entries| - 1;
    var init, first := entries[..n], FirstOf(entries[..n], host);
    assert forall k :: 0 <= k < n ==> entries[k] == init[k];
    assert forall k :: 0 <= k < first ==> entries[k].host != host;
    FirstOfIs(entries, host, FirstWith(init, entries[n], host));
  }

  lemma {:induction false} SquashedSecret(kind: Kind, acc: GoConfig, entries: seq<FsEntry>, host: string)
    requires SecretOf(kind, acc.options) == "" && SecretsAtFirst(kind, entries)
    ensures SecretOf(kind, SquashEntries(acc, entries, host).options) == SecretAt(kind, entries, host)
  {
    if entries != [] {
      var n := |entries| - 1;
      var init, last := entries[..n], entries[n];
      forall h ensures FirstOf(entries, h) == FirstWith(init, last, h) {
        FirstOfSnoc(entries, h);
      }
      forall i | 0 <= i < n && SecretOf(kind, init[i].config.options) != "" ensures FirstOf(init, init[i].host) == i {
        assert entries[i] == init[i];
      }
      SquashedSecret(kind, acc, init, host);
    }
  }

  lemma FirstOfInject(kind: Kind, entries: seq<FsEntry>, s: Secret, h: string)
    ensures
      var i, r := FirstOf(entries, h), Inject(kind, entries, s);
      FirstOf(r, h) == if i < |entries| || h == s.host then i else |r|
  {
    var i, r := FirstOf(entries, h), Inject(kind, entries, s);
    FirstOfIs(r, h, if i < |entries| || h == s.host then i else |r|);
  }

  lemma InjectKeepsSecretsAtFirst(kind: Kind, entries: seq<FsEntry>, s: Secret)
    requires SecretsAtFirst(kind, entries)
    ensures SecretsAtFirst(kind, Inject(kind, entries, s))
  {
    var r := Inject(kind, entries, s);
    forall i | 0 <= i < |r| && SecretOf(kind, r[i].config.options) != "" ensures FirstOf(r, r[i].host) == i {
      FirstOfInject(kind, entries, s, r[i].host);
      if i < |entries| && i != FirstOf(entries, s.host) {
        assert r[i] == entries[i];
      }
    }
  }

  lemma InjectSetsSecret(kind: Kind, entries: seq<FsEntry>, s: Secret, host: string)
    ensures SecretAt(kind, Inject(kind, entries, s), host)
         == if host == s.host then s.text else SecretAt(kind, entries, host)
  {
    FirstOfInject(kind, entries, s, host);
  }

  lemma {:induction false} InjectAllSetsLast(kind: Kind, entries: seq<FsEntry>, secrets: seq<Secret>, host: string)
    requires SecretsAtFirst(kind, entries)
    ensures SecretsAtFirst(kind, InjectAll(kind, entries, secrets))
    ensures SecretAt(kind, InjectAll(kind, entries, secrets), host)
         == if Listed(secrets, host) then LastSecret(secrets, host) else SecretAt(kind, entries, host)
  {
    if secrets != [] {
      var init, last := secrets[..|secrets| - 1], secrets[|secrets| - 1];
      InjectAllSetsLast(kind, entries, init, host);
      var before := InjectAll(kind, entries, init);
      InjectKeepsSecretsAtFirst(kind, before, last);
      InjectSetsSecret(kind, before, last, host);
      assert InjectAll(kind, entries, secrets) == Inject(kind, before, last);
      LastSnoc(secrets, host);
    }
  }

  lemma LastSnoc(secrets: seq<Secret>, host: string)
    requires secrets != []
    ensures
      var init, last := secrets[..|secrets| - 1], secrets[|secrets| - 1];
      && (Listed(secrets, host) <==> Listed(init, host) || last.host == host)
      && LastSecret(secrets, host) == if last.host == host then last.text else LastSecret(init, host)
  {
    var init, last := secrets[..|secrets| - 1], secrets[|secrets| - 1];
    assert secrets == init + [last];
    ListedSnoc(init, last, host);
  }

  predicate Listed(secrets: seq<Secret>, host: string)
  {
    exists s :: s in secrets && s.host == host
  }

  lemma ListedSnoc(init: seq<Secret>, last: Secret, host: string)
    ensures Listed(init + [last], host) <==> Listed(init, host) || last.host == host
  {
    if Listed(init, host) {
      var s :| s in init && s.host == host;
      assert s in init + [last];
    }
    if last.host == host {
      assert last in init + [last];
    }
  }

  lemma {:induction false} LastSecretNone(secrets: seq<Secret>, host: string)
    requires !exists s :: s in secrets && s.host == host
    ensures LastSecret(secrets, host) == ""
  {
    if secrets != [] {
      assert secrets[|secrets| - 1] in secrets;
      assert forall s :: s in secrets[..|secrets| - 1] ==> s in secrets;
      LastSecretNone(secrets[..|secrets| - 1], host);
    }
  }

  // ---- Nothing else changes ---------------------------------------------------------------------------

  function Blank(kind: Kind, c: GoConfig): (r: GoConfig)
  {
    GoConfig(WithSecret(kind, c.options, ""), c.conf)
  }

  /** Two squashed configurations that may differ in one secret and in nothing else. */
  predicate SameButSecret(kind: Kind, a: GoConfig, b: GoConfig)
  {
    Blank(kind, a) == Blank(kind, b)
  }

  lemma OverwrittenBlank(kind: Kind, a: GoConfig, b: GoConfig, from: GoConfig, from': GoConfig)
    requires SameButSecret(kind, a, b) && SameButSecret(kind, from, from')
    ensures SameButSecret(kind, Overwritten(a, from), Overwritten(b, from'))
  {
    assert a.conf == Blank(kind, a).conf == b.conf && from.conf == Blank(kind, from).conf == from'.conf;
    var o, o' := WithSecret(kind, a.options, ""), WithSecret(kind, from.options, "");
    assert WithSecret(kind, MergeOptions(a.options, from.options), "") == MergeOptions(o, o');
    assert WithSecret(kind, MergeOptions(b.options, from'.options), "") == MergeOptions(o, o');
  }

  lemma {:induction false} SquashSameButSecret(kind: Kind, a: GoConfig, b: GoConfig, xs: seq<FsEntry>,
      ys: seq<FsEntry>, host: string)
    requires SameButSecret(kind, a, b) && |xs| == |ys|
    requires forall i :: 0 <= i < |xs| ==> xs[i].host == ys[i].host && SameButSecret(kind, xs[i].config, ys[i].config)
    ensures SameButSecret(kind, SquashEntries(a, xs, host), SquashEntries(b, ys, host))
  {
    if xs != [] {
      var n := |xs| - 1;
      SquashSameButSecret(kind, a, b, xs[..n], ys[..n], host);
      OverwrittenBlank(kind, SquashEntries(a, xs[..n], host),
        SquashEntries(b, ys[..n], host), xs[n].config, ys[n].config);
    }
  }

  /** A new entry that holds nothing but a secret changes nothing but that secret. */
  lemma OverwriteBySecretOnly(kind: Kind, below: GoConfig, text: string)
    requires below.conf.Some?
    ensures SameButSecret(kind, Overwritten(below, GoConfig(WithSecret(kind, NO_OPTIONS, text), None)), below)
  {
    var added, nothing := GoConfig(WithSecret(kind, NO_OPTIONS, text), None), GoConfig(NO_OPTIONS, None);
    OverwrittenBlank(kind, below, below, added, nothing);
    assert below.conf.value + map[] == below.conf.value;
    assert Overwritten(below, nothing) == below;
  }

  lemma InjectChangesOnlySecret(kind: Kind, acc: GoConfig, entries: seq<FsEntry>, s: Secret, host: string)
    requires acc.conf.Some?
    ensures SameButSecret(kind, SquashEntries(acc, Inject(kind, entries, s), host), SquashEntries(acc, entries, host))
  {
    var r := Inject(kind, entries, s);
    if FirstOf(entries, s.host) < |entries| {
      SquashSameButSecret(kind, acc, acc, r, entries, host);
    } else {
      assert r[..|entries|] == entries;
      OverwriteBySecretOnly(kind, SquashEntries(acc, entries, host), s.text);
    }
  }

  lemma {:induction false} InjectAllChangesOnlySecret(kind: Kind, acc: GoConfig, entries: seq<FsEntry>,
      secrets: seq<Secret>, host: string)
    requires acc.conf.Some?
    ensures SameButSecret(kind, SquashEntries(acc, InjectAll(kind, entries, secrets), host),
      SquashEntries(acc, entries, host))
  {
    if secrets != [] {
      var init := secrets[..|secrets| - 1];
      InjectAllChangesOnlySecret(kind, acc, entries, init, host);
      InjectChangesOnlySecret(kind, acc, InjectAll(kind, entries, init), secrets[|secrets| - 1], host);
    }
  }

  // ---- Main results ------------------------------------------------------------------------------------

  /** Every host is given the secret listed last for it, and nothing else about any host changes. */
  lemma InjectionIsLastWriterWins(kind: Kind, p: Plugin, secrets: seq<Secret>, host: string)
    requires NoSecrets(kind, p)
    ensures
      var squashed := Squash(host, InjectPlugin(kind, p, secrets));
      && SecretOf(kind, squashed.options) == LastSecret(secrets, host)
      && SameButSecret(kind, squashed, Squash(host, p))
  {
    var acc := Overwritten(NEW_CONFIG, p.defaults);
    InjectAllSetsLast(kind, p.fileSystems, secrets, host);
    SquashedSecret(kind, acc, InjectAll(kind, p.fileSystems, secrets), host);
    InjectAllChangesOnlySecret(kind, acc, p.fileSystems, secrets, host);
    if !exists s :: s in secrets && s.host == host {
      LastSecretNone(secrets, host);
    }
  }

  lemma {:induction false} InjectKeepsOther(kind: Kind, other: Kind, entries: seq<FsEntry>, secrets: seq<Secret>)
    requires other != kind
    requires forall i :: 0 <= i < |entries| ==> SecretOf(other, entries[i].config.options) == ""
    ensures forall i :: 0 <= i < |InjectAll(kind, entries, secrets)| ==>
      SecretOf(other, InjectAll(kind, entries, secrets)[i].config.options) == ""
  {
    if secrets != [] {
      InjectKeepsOther(kind, other, entries, secrets[..|secrets| - 1]);
    }
  }

  lemma SameFromParts(kind: Kind, a: GoConfig, b: GoConfig)
    requires SameButSecret(kind, a, b) && SecretOf(kind, a.options) == SecretOf(kind, b.options)
    ensures a == b
  {
    assert a.conf == Blank(kind, a).conf && b.conf == Blank(kind, b).conf;
    assert WithSecret(kind, WithSecret(kind, a.options, ""), SecretOf(kind, a.options)) == a.options;
    assert WithSecret(kind, WithSecret(kind, b.options, ""), SecretOf(kind, b.options)) == b.options;
  }

  /** The order of the connAuth and tlsCerts passes does not show in any host's configuration. */
  lemma PassesCommute(p: Plugin, auths: seq<Secret>, certs: seq<Secret>, host: string)
    requires NoSecrets(ConnAuth, p) && NoSecrets(TlsCert, p)
    ensures Squash(host, InjectPlugin(TlsCert, InjectPlugin(ConnAuth, p, auths), certs))
         == Squash(host, InjectPlugin(ConnAuth, InjectPlugin(TlsCert, p, certs), auths))
  {
    var pa, pt := InjectPlugin(ConnAuth, p, auths), InjectPlugin(TlsCert, p, certs);
    InjectKeepsOther(ConnAuth, TlsCert, p.fileSystems, auths);
    InjectKeepsOther(TlsCert, ConnAuth, p.fileSystems, certs);
    InjectionIsLastWriterWins(ConnAuth, p, auths, host);
    InjectionIsLastWriterWins(TlsCert, p, certs, host);
    InjectionIsLastWriterWins(TlsCert, pa, certs, host);
    InjectionIsLastWriterWins(ConnAuth, pt, auths, host);
    var a, b := Squash(host, InjectPlugin(TlsCert, pa, certs)), Squash(host, InjectPlugin(ConnAuth, pt, auths));
    var base, sa, st := Squash(host, p), Squash(host, pa), Squash(host, pt);
    SecretAcross(ConnAuth, TlsCert, a, sa);
    SecretAcross(TlsCert, ConnAuth, b, st);
    BlankBoth(a, sa, base, st, b);
  }

  lemma SecretAcross(kind: Kind, other: Kind, a: GoConfig, b: GoConfig)
    requires kind != other && SameButSecret(other, a, b)
    ensures SecretOf(kind, a.options) == SecretOf(kind, b.options)
  {
    assert SecretOf(kind, WithSecret(other, a.options, "")) == SecretOf(kind, a.options);
    assert SecretOf(kind, WithSecret(other, b.options, "")) == SecretOf(kind, b.options);
  }

  lemma BlankBoth(a: GoConfig, sa: GoConfig, base: GoConfig, st: GoConfig, b: GoConfig)
    requires SameButSecret(TlsCert, a, sa) && SameButSecret(ConnAuth, sa, base)
    requires SameButSecret(ConnAuth, b, st) && SameButSecret(TlsCert, st, base)
    requires SecretOf(ConnAuth, a.options) == SecretOf(ConnAuth, b.options)
    requires SecretOf(TlsCert, a.options) == SecretOf(TlsCert, b.options)
    ensures a == b
  {
    assert Blank(ConnAuth, Blank(TlsCert, a)) == Blank(ConnAuth, Blank(TlsCert, b));
    assert SameButSecret(TlsCert, a, b) by {
      SameFromParts(ConnAuth, Blank(TlsCert, a), Blank(TlsCert, b));
    }
    SameFromParts(TlsCert, a, b);
  }

  // ---- parseConnAuthFromFile and parseTLSCertsFromFile -------------------------------------------------

  /** One secret: the first entry of its host takes it, otherwise a new entry is appended. */
  method InjectSecret(kind: Kind, plugin: PluginConfig, s: Secret)
    modifies plugin
    ensures plugin.defaults == old(plugin.defaults)
    ensures plugin.Meaning()
         == old(plugin.Meaning()).(fileSystems := Inject(kind, old(plugin.Meaning()).fileSystems, s))
  {
    ghost var before := EntriesMeaning(plugin.fileSystems);
    var i := 0;
    while i < |plugin.fileSystems|
      invariant 0 <= i <= |plugin.fileSystems|
      invariant forall k :: 0 <= k < i ==> plugin.fileSystems[k].host != s.host
    {
      var e := plugin.fileSystems[i];
      if e.host == s.host {
        FirstOfIs(before, s.host, i);
        var options := WithSecret(kind, e.config.options, s.text);
        plugin.fileSystems :=
          plugin.fileSystems[i := FileSystemSpecificConfig(e.host, BeegfsConfig(options, e.config.conf))];
        assert EntriesMeaning(plugin.fileSystems) == Inject(kind, before, s);
        return;
      }
      i := i + 1;
    }
    FirstOfIs(before, s.host, i);
    var added := BeegfsConfig(WithSecret(kind, NO_OPTIONS, s.text), null);
    plugin.fileSystems := plugin.fileSystems + [FileSystemSpecificConfig(s.host, added)];
    assert EntriesMeaning(plugin.fileSystems) == Inject(kind, before, s);
  }

  /** The list is decoded and injected entry by entry; the first entry that cannot be decoded ends the pass. */
  function DecodedPrefix(list: seq<Encoded>, base64: string -> Option<string>): (r: seq<Secret>)
    ensures |r| <= |list|
    ensures forall i :: 0 <= i < |r| ==> Decode(list[i], base64) == Some(r[i])
    ensures |r| < |list| ==> Decode(list[|r|], base64).None?
  {
    if list == [] || Decode(list[0], base64).None? then []
    else [Decode(list[0], base64).value] + DecodedPrefix(list[1..], base64)
  }

  lemma InjectSnoc(kind: Kind, p: Plugin, secrets: seq<Secret>, i: nat)
    requires i < |secrets|
    ensures
      var before := InjectPlugin(kind, p, secrets[..i]);
      InjectPlugin(kind, p, secrets[..i + 1]) == before.(fileSystems := Inject(kind, before.fileSystems, secrets[i]))
  {
    assert secrets[..i + 1][..i] == secrets[..i];
  }

  method InjectSecrets(kind: Kind, plugin: PluginConfig, list: seq<Encoded>, base64: string -> Option<string>)
    returns (ok: bool)
    modifies plugin
    ensures plugin.Meaning() == InjectPlugin(kind, old(plugin.Meaning()), DecodedPrefix(list, base64))
    ensures ok <==> forall i :: 0 <= i < |list| ==>
      || list[i].encoding == "raw" || list[i].encoding == ""
      || (list[i].encoding == "base64" && base64(list[i].text).Some?)
  {
    ghost var secrets := DecodedPrefix(list, base64);
    ok := true;
    var i := 0;
    while i < |list|
      invariant 0 <= i <= |secrets| && ok
      invariant plugin.Meaning() == InjectPlugin(kind, old(plugin.Meaning()), secrets[..i])
    {
      var decoded := Decode(list[i], base64);
      if decoded.None? {
        ok := false;
        assert secrets[..i] == secrets;
        return;
      }
      InjectSnoc(kind, old(plugin.Meaning()), secrets, i);
      InjectSecret(kind, plugin, decoded.value);
      i := i + 1;
    }
    assert secrets[..i] == secrets;
  }

  /** Certificates are not encoded. They are written with a final newline, like raw secrets. */
  function WithNewlines(certs: seq<Secret>): (r: seq<Secret>)
    ensures |r| == |certs| && forall i :: 0 <= i < |r| ==> r[i] == Secret(certs[i].host, certs[i].text + "\n")
  {
    seq(|certs|, i requires 0 <= i < |certs| => Secret(certs[i].host, certs[i].text + "\n"))
  }

  method InjectTlsCerts(plugin: PluginConfig, certs: seq<Secret>)
    modifies plugin
    ensures plugin.Meaning() == InjectPlugin(TlsCert, old(plugin.Meaning()), WithNewlines(certs))
  {
    ghost var secrets := WithNewlines(certs);
    var i := 0;
    while i < |certs|
      invariant 0 <= i <= |certs|
      invariant plugin.Meaning() == InjectPlugin(TlsCert, old(plugin.Meaning()), secrets[..i])
    {
      InjectSnoc(TlsCert, old(plugin.Meaning()), secrets, i);
      InjectSecret(TlsCert, plugin, Secret(certs[i].host, certs[i].text + "\n"));
      i := i + 1;
    }
    assert secrets[..i] == secrets;
  }

  // ---- What is loaded for a host -------------------------------------------------------------------------------

  lemma {:induction false} LastSecretAt(secrets: seq<Secret>, host: string, i: nat)
    requires i < |secrets| && secrets[i].host == host && forall j :: i < j < |secrets| ==> secrets[j].host != host
    ensures LastSecret(secrets, host) == secrets[i].text
  {
    if i < |secrets| - 1 {
      LastSecretAt(secrets[..|secrets| - 1], host, i);
    }
  }

  /** The connAuth of a host is the text of its last entry, decoded or with a newline; its certificate stays. */
  lemma {:induction false} ConnAuthLoaded(p: Plugin, list: seq<Encoded>, base64: string -> Option<string>,
      host: string, i: nat)
    requires NoSecrets(ConnAuth, p) && forall j :: 0 <= j < |list| ==> Decode(list[j], base64).Some?
    requires i < |list| && list[i].host == host && forall j :: i < j < |list| ==> list[j].host != host
    ensures
      var squashed := Squash(host, InjectPlugin(ConnAuth, p, DecodedPrefix(list, base64)));
      && (list[i].encoding == "base64" ==> Some(squashed.options.connAuth) == base64(list[i].text))
      && (list[i].encoding != "base64" ==> squashed.options.connAuth == list[i].text + "\n")
      && squashed.options.tlsCert == Squash(host, p).options.tlsCert
  {
    var secrets := DecodedPrefix(list, base64);
    assert |secrets| == |list| && forall j :: 0 <= j < |list| ==> secrets[j].host == list[j].host;
    InjectionIsLastWriterWins(ConnAuth, p, secrets, host);
    LastSecretAt(secrets, host, i);
    BlankKeepsOther(ConnAuth, Squash(host, InjectPlugin(ConnAuth, p, secrets)), Squash(host, p));
  }

  /** The certificate of a host is the text of its last entry with a newline; its connAuth stays. */
  lemma {:induction false} TlsCertLoaded(p: Plugin, certs: seq<Secret>, host: string, i: nat)
    requires NoSecrets(TlsCert, p)
    requires i < |certs| && certs[i].host == host && forall j :: i < j < |certs| ==> certs[j].host != host
    ensures
      var squashed := Squash(host, InjectPlugin(TlsCert, p, WithNewlines(certs)));
      squashed.options.tlsCert == certs[i].text + "\n" && squashed.options.connAuth == Squash(host, p).options.connAuth
  {
    var secrets := WithNewlines(certs);
    InjectionIsLastWriterWins(TlsCert, p, secrets, host);
    LastSecretAt(secrets, host, i);
    BlankKeepsOther(TlsCert, Squash(host, InjectPlugin(TlsCert, p, secrets)), Squash(host, p));
  }

  lemma BlankKeepsOther(kind: Kind, a: GoConfig, b: GoConfig)
    requires SameButSecret(kind, a, b)
    ensures kind == ConnAuth ==> a.options.tlsCert == b.options.tlsCert
    ensures kind == TlsCert ==> a.options.connAuth == b.options.connAuth
  {
    var x, y := Blank(kind, a), Blank(kind, b);
    assert x == y;
  }

  /** A secret goes to the first entry of its host and leaves everything else there and elsewhere alone. */
  lemma InjectTakesFirst(kind: Kind, entries: seq<FsEntry>, s: Secret, i: nat)
    requires i < |entries| && entries[i].host == s.host && forall j :: 0 <= j < i ==> entries[j].host != s.host
    ensures
      var r := Inject(kind, entries, s);
      && |r| == |entries| && (forall j :: 0 <= j < |r| && j != i ==> r[j] == entries[j])
      && r[i].host == s.host && r[i].config.conf == entries[i].config.conf
      && (kind == ConnAuth ==> r[i].config.options == entries[i].config.options.(connAuth := s.text))
      && (kind == TlsCert ==> r[i].config.options == entries[i].config.options.(tlsCert := s.text))
  {
    FirstOfIs(entries, s.host, i);
  }

  /** For a host without an entry, one is added that holds nothing else. */
  lemma InjectAddsEntry(kind: Kind, entries: seq<FsEntry>, s: Secret)
    requires forall j :: 0 <= j < |entries| ==> entries[j].host != s.host
    ensures
      var o := if kind == ConnAuth then NO_OPTIONS.(connAuth := s.text) else NO_OPTIONS.(tlsCert := s.text);
      Inject(kind, entries, s) == entries + [FsEntry(s.host, GoConfig(o, None))]
  {
    FirstOfIs(entries, s.host, |entries|);
  }
}
