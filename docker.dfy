/**
 * `internal/test/docker`: the pure parts of the container test helpers —
 * router lookup, VLAN sub-interface names, the volume bind, the pid
 * clean-up and the image/container name matches.
 */
module Docker {
  import opened PyStr
  import opened Wrappers

  datatype Intf = Intf(name: string, address: string, vlan: string)

  /** `Router`; `id` is the container id filled in once it is started. */
  datatype Router = Router(image: string, hostname: string, cmd: string, intfs: seq<Intf>, id: string)

  datatype Config = Config(volume: string, mapping: string, routers: seq<Router>)

  /** The zero value of `Router`. */
  const NoRouter := Router("", "", "", [], "")

  /** The result of `FindHost`: a router and an error that is never set. */
  datatype Found = Found(router: Router, err: Option<string>)

  /** `FindHost(config, host)`: the loop over the routers, returning at the first match. */
  function FindHost(routers: seq<Router>, host: string): (r: Found)
    ensures r.err == None
  {
    if routers == [] then Found(NoRouter, None)
    else if routers[0].hostname == host then Found(routers[0], None)
    else FindHost(routers[1..], host)
  }

  /** The router found is the first one whose hostname is `host`. */
  lemma {:induction false} FindHostFirst(routers: seq<Router>, host: string, i: nat)
    requires i < |routers| && routers[i].hostname == host
    requires forall j :: 0 <= j < i ==> routers[j].hostname != host
    ensures FindHost(routers, host).router == routers[i]
  {
    if i > 0 {
      FindHostFirst(routers[1..], host, i - 1);
    }
  }

  /** Without a match the result is the zero `Router`, still with no error. */
  lemma {:induction false} FindHostMissing(routers: seq<Router>, host: string)
    requires forall j :: 0 <= j < |routers| ==> routers[j].hostname != host
    ensures FindHost(routers, host) == Found(NoRouter, None)
  {
    if routers != [] {
      FindHostMissing(routers[1..], host);
    }
  }

  /** The name an interface has once configured: "<name>.<vlan>" for a VLAN, else the name. */
  function VlanName(intf: Intf): (r: string)
    ensures r == intf.name <==> intf.vlan == ""
  {
    if intf.vlan != "" then intf.name + "." + intf.vlan else intf.name
  }

  /** The VLAN sub-interface name splits back into the interface and the VLAN. */
  lemma VlanNameSplits(intf: Intf)
    requires intf.vlan != "" && '.' !in intf.name && '.' !in intf.vlan
    ensures Split(VlanName(intf), ".") == [intf.name, intf.vlan]
  {
    assert Join(".", [intf.name, intf.vlan]) == VlanName(intf);
    SplitOfJoin([intf.name, intf.vlan], '.');
  }

  /** `vdir`: the working directory followed by the volume, or "" unless a volume and a mapping are both given. */
  function VolumeDir(config: Config, pwd: string): (r: string)
    ensures r != "" <==> config.volume != "" && config.mapping != ""
  {
    if config.volume != "" && config.mapping != "" then pwd + config.volume else ""
  }

  /** A router's bind: "<vdir>volumes/<hostname>:<mapping>" whenever `vdir` is set. */
  function Bind(vdir: string, hostname: string, mapping: string): (r: Option<string>)
    ensures r.Some? <==> vdir != ""
  {
    if vdir != "" then Some(vdir + "volumes/" + hostname + ":" + mapping) else None
  }

  /** The bind exists exactly when both settings do; it names the host's directory and the mapping. */
  lemma BindOfConfig(config: Config, pwd: string, hostname: string)
    ensures var b := Bind(VolumeDir(config, pwd), hostname, config.mapping);
            (b.Some? <==> config.volume != "" && config.mapping != "")
            && (b.Some? ==>
                  StartsWith(b.value, pwd + config.volume + "volumes/" + hostname + ":")
                  && b.value[|b.value| - |config.mapping|..] == config.mapping)
  {
  }

  /** `s` with every `c` taken out, the order of the others kept. */
  function Remove(s: string, c: char): (r: string)
    ensures c !in r && |r| <= |s|
  {
    if s == [] then [] else (if s[0] == c then [] else [s[0]]) + Remove(s[1..], c)
  }

  /** Replacing a one-character pattern by nothing removes it. */
  lemma {:induction false} ReplaceRemoves(s: string, c: char)
    ensures Replace(s, [c], "") == Remove(s, c)
  {
    if s != [] {
      ReplaceRemoves(s[1..], c);
      assert s[..1] == [s[0]];
    }
  }

  lemma {:induction false} RemoveKeeps(s: string, c: char, d: char)
    ensures c != d ==> (d in Remove(s, c) <==> d in s)
  {
    if s != [] {
      RemoveKeeps(s[1..], c, d);
      assert s == [s[0]] + s[1..];
    }
  }

  /** `getPid`: the inspect output without its newlines and quotes. */
  function CleanPid(out: string): (r: string)
    ensures r == Remove(Remove(out, '\n'), '\'')
    ensures '\n' !in r && '\'' !in r
  {
    ReplaceRemoves(out, '\n');
    ReplaceRemoves(Remove(out, '\n'), '\'');
    assert "\n" == ['\n'] && "'" == ['\''];
    RemoveKeeps(Remove(out, '\n'), '\'', '\n');
    Replace(Replace(out, "\n", ""), "'", "")
  }

  /** Every character other than a newline or a quote stays. */
  lemma CleanPidRemoves(out: string)
    ensures forall d :: d != '\n' && d != '\'' ==> (d in CleanPid(out) <==> d in out)
  {
    forall d | d != '\n' && d != '\''
      ensures d in CleanPid(out) <==> d in out
    {
      RemoveKeeps(out, '\n', d);
      RemoveKeeps(Remove(out, '\n'), '\'', d);
    }
  }

  /** `docker inspect -f '{{.State.Pid}}'` prints the pid quoted, with a newline; the pid comes back. */
  lemma CleanPidQuoted(pid: string)
    requires '\n' !in pid && '\'' !in pid
    ensures CleanPid("'" + pid + "'" + "\n") == pid
  {
    var q, nl := "'", "\n";
    var out := q + pid + q + nl;
    CleanPidRemoves(out);
    RemoveAppend(q + pid + q, nl, '\n');
    RemoveAbsent(q + pid + q, '\n');
    RemoveSelf('\n');
    var t := Remove(out, '\n');
    assert t == q + pid + q;
    RemoveAppend(q + pid, q, '\'');
    RemoveAppend(q, pid, '\'');
    RemoveAbsent(pid, '\'');
    RemoveSelf('\'');
    assert Remove(t, '\'') == pid;
  }

  lemma RemoveSelf(c: char)
    ensures Remove([c], c) == []
  {
    assert Remove([c], c) == [] + Remove([c][1..], c);
  }

  lemma {:induction false} RemoveAppend(a: string, b: string, c: char)
    ensures Remove(a + b, c) == Remove(a, c) + Remove(b, c)
  {
    if a == [] {
      assert a + b == b;
    } else {
      assert (a + b)[0] == a[0] && (a + b)[1..] == a[1..] + b;
      RemoveAppend(a[1..], b, c);
      assert Remove(a, c) == (if a[0] == c then [] else [a[0]]) + Remove(a[1..], c);
    }
  }

  lemma {:induction false} RemoveAbsent(s: string, c: char)
    requires c !in s
    ensures Remove(s, c) == s
  {
    if s != [] {
      RemoveAbsent(s[1..], c);
    }
  }

  /**
   * `isImageLocal`: whether some image has a repo tag equal to the
   * router's image; failing to list the images (`None`) gives false.
   */
  function IsImageLocal(images: Option<seq<seq<string>>>, image: string): (r: bool)
    ensures r <==> images.Some? && exists i, j :: 0 <= i < |images.value| && 0 <= j < |images.value[i]|
                                                 && images.value[i][j] == image
  {
    if images.None? then false
    else
      AnyTagExists(images.value, image);
      AnyTag(images.value, image)
  }

  predicate AnyTag(images: seq<seq<string>>, image: string)
    decreases |images|
  {
    images != [] && (image in images[0] || AnyTag(images[1..], image))
  }

  lemma {:induction false} AnyTagExists(images: seq<seq<string>>, image: string)
    ensures AnyTag(images, image) <==> exists i, j :: 0 <= i < |images| && 0 <= j < |images[i]| && images[i][j] == image
    decreases |images|
  {
    if images != [] {
      AnyTagExists(images[1..], image);
      assert forall i :: 1 <= i < |images| ==> images[i] == images[1..][i - 1];
    }
  }

  /**
   * `isContainerRunning`: whether some container has a name that, without
   * its leading '/', is `name`; failing to list the containers gives false.
   * Go would panic on an empty container name, so names here are non-empty.
   */
  function IsContainerRunning(conts: Option<seq<seq<string>>>, name: string): (r: bool)
    requires conts.Some? ==> forall i, j :: 0 <= i < |conts.value| && 0 <= j < |conts.value[i]| ==> conts.value[i][j] != ""
    ensures r <==> conts.Some? && exists i, j :: 0 <= i < |conts.value| && 0 <= j < |conts.value[i]|
                                                && conts.value[i][j][1..] == name
  {
    if conts.None? then false
    else
      AnyNameExists(conts.value, name);
      AnyName(conts.value, name)
  }

  predicate AnyName(conts: seq<seq<string>>, name: string)
    decreases |conts|
  {
    conts != [] && ((exists j :: 0 <= j < |conts[0]| && Drop(conts[0][j], 1) == name) || AnyName(conts[1..], name))
  }

  lemma {:induction false} AnyNameExists(conts: seq<seq<string>>, name: string)
    requires forall i, j :: 0 <= i < |conts| && 0 <= j < |conts[i]| ==> conts[i][j] != ""
    ensures AnyName(conts, name) <==> exists i, j :: 0 <= i < |conts| && 0 <= j < |conts[i]| && conts[i][j][1..] == name
    decreases |conts|
  {
    if conts != [] {
      AnyNameExists(conts[1..], name);
      assert forall i :: 1 <= i < |conts| ==> conts[i] == conts[1..][i - 1];
    }
  }
}
