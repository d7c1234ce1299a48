/**
 * `testcases/docker/docker_updown.py`: read a container's name, its front
 * panel ports and their subport from a config file, then move the ports
 * and a dummy interface into the container ('up') or back out ('down').
 * Command outputs are ignored.
 */
module DockerUpDown {
  import opened Wrappers
  import opened PyStr
  import opened Recorder

  const Move: string := "~/./docker_move.sh"
  const Done: string := "Module executed successfully"

  /** The settings read from the config file. */
  datatype Config = Config(container: Option<string>, eths: seq<string>, subport: string)

  /** Before the first line: no container, no ports, subport 1. */
  function Initial(): Config {
    Config(None, [], "1")
  }

  /** The setting a config line holds: the first keyword it contains, in this order. */
  datatype Kind = Container | Interface | Subport | Other

  function KindOf(line: string): Kind {
    if Contains(line, "container_name") then Container
    else if Contains(line, "interface") then Interface
    else if Contains(line, "subport") then Subport
    else Other
  }

  /** `line.split()[1]`, or `None` where Python raises. */
  function Token(line: string): Option<string> {
    var ws := Words(line);
    if |ws| >= 2 then Some(ws[1]) else None
  }

  /** The effect of one config line, or `None` where Python raises. */
  function Apply(c: Config, line: string): Option<Config> {
    match KindOf(line)
    case Other => Some(c)
    case Container => if Token(line).None? then None else Some(c.(container := Some(Token(line).value)))
    case Interface => if Token(line).None? then None else Some(c.(eths := c.eths + [Token(line).value]))
    case Subport => if Token(line).None? then None else Some(c.(subport := Token(line).value))
  }

  /** The settings after the lines `lines`, starting from `c`. */
  function ParseFrom(c: Config, lines: seq<string>): Option<Config>
    decreases |lines|
  {
    if lines == [] then Some(c)
    else
      match Apply(c, lines[0])
      case None => None
      case Some(c1) => ParseFrom(c1, lines[1..])
  }

  function Parse(configFile: string): Option<Config> {
    ParseFrom(Initial(), SplitLines(configFile))
  }

  /** The container's name and `int(name[1:])`, when both exist. */
  function Dummy(c: Config): Option<(string, int)> {
    match c.container
    case None => None
    case Some(name) =>
      if |name| >= 1 && PyInt(name[1..]).Some? then Some((name, PyInt(name[1..]).value)) else None
  }

  function EthName(eth: string, subport: string): string {
    "eth-" + eth + "-" + subport
  }

  function UpEth(name: string, subport: string): string -> string {
    (eth: string) => Move + " up " + name + " " + EthName(eth, subport) + " 10." + eth + "." + subport + ".32/24"
  }

  function DownEth(name: string, subport: string): string -> string {
    (eth: string) => Move + " down " + name + " " + EthName(eth, subport)
  }

  function AddDummy(id: int): string {
    "ip link add dummy" + IntToStr(id) + " type dummy 2> /dev/null"
  }

  /** The dummy's address is 192.168.<name[1:]>.1/32, with the name's text as written. */
  function DummyIn(name: string, id: int): string
    requires |name| >= 1
  {
    Move + " up " + name + " dummy" + IntToStr(id) + " 192.168." + name[1..] + ".1/32"
  }

  /** 'up': create the dummy, move it in, then move each port in. */
  function UpCmds(name: string, id: int, c: Config): seq<string>
    requires |name| >= 1
  {
    [AddDummy(id), DummyIn(name, id)] + ItemCmds(c.eths, UpEth(name, c.subport))
  }

  /** 'down': move each port out, then the dummy. */
  function DownCmds(name: string, id: int, c: Config): seq<string> {
    ItemCmds(c.eths, DownEth(name, c.subport)) + [Move + " down " + name + " dummy" + IntToStr(id)]
  }

  /** Every command the module runs, or `None` where Python raises (before running any). */
  function Commands(configFile: string, up: bool): Option<seq<string>> {
    match Parse(configFile)
    case None => None
    case Some(c) =>
      match Dummy(c)
      case None => None
      case Some((name, id)) => Some(if up then UpCmds(name, id, c) else DownCmds(name, id, c))
  }

  /** The loop over the config file. */
  method ParseConfig(configFile: string) returns (r: Option<Config>)
    ensures r == Parse(configFile)
  {
    var lines := SplitLines(configFile);
    var container: Option<string> := None;
    var eths: seq<string> := [];
    var subport := "1";
    var i := 0;
    while i < |lines|
      invariant 0 <= i <= |lines|
      invariant ParseFrom(Config(container, eths, subport), lines[i..]) == Parse(configFile)
    {
      var line := lines[i];
      assert lines[i..][1..] == lines[i + 1..];
      var words := Words(line);
      if Contains(line, "container_name") {
        if |words| < 2 {
          return None;
        }
        container := Some(words[1]);
      } else if Contains(line, "interface") {
        if |words| < 2 {
          return None;
        }
        eths := eths + [words[1]];
      } else if Contains(line, "subport") {
        if |words| < 2 {
          return None;
        }
        subport := words[1];
      }
      i := i + 1;
    }
    r := Some(Config(container, eths, subport));
  }

  /** One of the loops over the ports. */
  method MoveEths(s: Session, eths: seq<string>, cmd: string -> string)
    modifies s
    ensures s.St() == old(s.St()).(history := old(s.history) + ItemCmds(eths, cmd))
  {
    ghost var cmds := ItemCmds(eths, cmd);
    var i := 0;
    while i < |eths|
      invariant 0 <= i <= |eths|
      invariant s.St() == old(s.St()).(history := old(s.history) + cmds[..i])
    {
      var _ := s.RunCli(cmd(eths[i]));
      assert cmds[..i + 1] == cmds[..i] + [cmd(eths[i])];
      i := i + 1;
    }
    assert cmds[..|eths|] == cmds;
  }

  /** `main`: the message, or `None` where Python raises. */
  method RunModule(s: Session, configFile: string, up: bool) returns (msg: Option<string>)
    modifies s
    ensures msg.Some? <==> Commands(configFile, up).Some?
    ensures msg.Some? ==> msg.value == Done
    ensures s.St() == old(s.St()).(history := old(s.history) + Commands(configFile, up).GetOr([]))
  {
    var c := ParseConfig(configFile);
    if c.None? || c.value.container.None? {
      return None;
    }
    var name := c.value.container.value;
    if |name| < 1 || PyInt(name[1..]).None? {
      return None;
    }
    var id := PyInt(name[1..]).value;
    if up {
      RunUp(s, name, id, c.value);
    } else {
      RunDown(s, name, id, c.value);
    }
    msg := Some(Done);
  }

  /** The 'up' branch of `main`. */
  method RunUp(s: Session, name: string, id: int, c: Config)
    modifies s
    requires |name| >= 1
    ensures s.St() == old(s.St()).(history := old(s.history) + UpCmds(name, id, c))
  {
    var _ := s.RunCli(AddDummy(id));
    var _ := s.RunCli(DummyIn(name, id));
    MoveEths(s, c.eths, UpEth(name, c.subport));
    AppendAssoc(old(s.history), [AddDummy(id)], [DummyIn(name, id)], ItemCmds(c.eths, UpEth(name, c.subport)));
  }

  /** The 'down' branch of `main`. */
  method RunDown(s: Session, name: string, id: int, c: Config)
    modifies s
    ensures s.St() == old(s.St()).(history := old(s.history) + DownCmds(name, id, c))
  {
    MoveEths(s, c.eths, DownEth(name, c.subport));
    var _ := s.RunCli(Move + " down " + name + " dummy" + IntToStr(id));
  }

  lemma AppendAssoc(h: seq<string>, a: seq<string>, b: seq<string>, c: seq<string>)
    ensures h + a + b + c == h + (a + b + c)
  {
  }

  // ---------------------------------------------------------------------
  // Properties

  /** The ports listed, in order: token 1 of every line routed to 'interface'. */
  function Listed(lines: seq<string>): seq<string>
    decreases |lines|
  {
    if lines == [] then []
    else (if KindOf(lines[0]) == Interface then [Token(lines[0]).GetOr("")] else []) + Listed(lines[1..])
  }

  /** A line the parse needs token 1 of. */
  predicate Routed(line: string) {
    KindOf(line) != Other
  }

  /** The config parses exactly when every routed line has a token 1. */
  lemma {:induction false} ParseOk(c: Config, lines: seq<string>)
    ensures ParseFrom(c, lines).Some? <==> forall i :: 0 <= i < |lines| ==> Routed(lines[i]) ==> Token(lines[i]).Some?
    decreases |lines|
  {
    if lines != [] {
      var rest := lines[1..];
      assert forall i :: 0 <= i < |rest| ==> rest[i] == lines[i + 1];
      if Apply(c, lines[0]).Some? {
        ParseOk(Apply(c, lines[0]).value, rest);
      }
    }
  }

  /** The ports are those of the 'interface' lines, in order, after the ports already read. */
  lemma {:induction false} ParseEths(c: Config, lines: seq<string>)
    requires ParseFrom(c, lines).Some?
    ensures ParseFrom(c, lines).value.eths == c.eths + Listed(lines)
    decreases |lines|
  {
    if lines != [] {
      var c1 := Apply(c, lines[0]).value;
      var one := if KindOf(lines[0]) == Interface then [Token(lines[0]).GetOr("")] else [];
      ApplyEths(c, lines[0]);
      ParseEths(c1, lines[1..]);
      EthsJoin(c.eths, one, Listed(lines[1..]), c1.eths, ParseFrom(c, lines).value.eths, Listed(lines));
    }
  }

  /** A line adds its token to the ports exactly when it is routed to 'interface'. */
  lemma ApplyEths(c: Config, line: string)
    requires Apply(c, line).Some?
    ensures Apply(c, line).value.eths == c.eths + (if KindOf(line) == Interface then [Token(line).GetOr("")] else [])
  {
  }

  lemma EthsJoin(a: seq<string>, b: seq<string>, rest: seq<string>, ab: seq<string>, all: seq<string>, listed: seq<string>)
    requires ab == a + b && all == ab + rest && listed == b + rest
    ensures all == a + listed
  {
  }

  /** Container and subport keep their value unless a line sets them. */
  lemma {:induction false} ParseKeeps(c: Config, lines: seq<string>)
    requires ParseFrom(c, lines).Some?
    ensures (forall i :: 0 <= i < |lines| ==> KindOf(lines[i]) != Container) ==>
              ParseFrom(c, lines).value.container == c.container
    ensures (forall i :: 0 <= i < |lines| ==> KindOf(lines[i]) != Subport) ==>
              ParseFrom(c, lines).value.subport == c.subport
    decreases |lines|
  {
    if lines != [] {
      var rest := lines[1..];
      assert forall i :: 0 <= i < |rest| ==> rest[i] == lines[i + 1];
      ParseKeeps(Apply(c, lines[0]).value, rest);
    }
  }

  /** A line naming the container wins over 'interface' and 'subport' on the same line. */
  lemma RoutingOrder(c: Config, line: string)
    requires Contains(line, "container_name") && Token(line).Some?
    ensures Apply(c, line) == Some(c.(container := Token(line)))
  {
  }

  /**
   * A run that completes issues two commands more or one command more than
   * there are ports: 'up' starts with the dummy and then moves every port
   * in with address 10.<port>.<subport>.32/24; 'down' moves every port out
   * and then the dummy, so the dummy is first in and last out.
   */
  lemma CommandsSpec(configFile: string, up: bool)
    requires Commands(configFile, up).Some?
    ensures var c := Parse(configFile).value;
            var name := c.container.value;
            var cmds := Commands(configFile, up).value;
            |cmds| == |c.eths| + (if up then 2 else 1)
            && (up ==> StartsWith(cmds[0], "ip link add dummy")
                       && forall i :: 0 <= i < |c.eths| ==>
                            cmds[i + 2] == Move + " up " + name + " " + EthName(c.eths[i], c.subport)
                                           + " 10." + c.eths[i] + "." + c.subport + ".32/24")
            && (!up ==> (forall i :: 0 <= i < |c.eths| ==>
                           cmds[i] == Move + " down " + name + " " + EthName(c.eths[i], c.subport))
                        && cmds[|cmds| - 1] == Move + " down " + name + " dummy" + IntToStr(PyInt(name[1..]).value))
  {
    var c := Parse(configFile).value;
    var name := c.container.value;
    var id := PyInt(name[1..]).value;
    var head := AddDummy(id);
    assert head == "ip link add dummy" + (IntToStr(id) + " type dummy 2> /dev/null");
    assert head[..|"ip link add dummy"|] == "ip link add dummy";
  }

  /**
   * The module runs nothing unless the config names a container whose name
   * after its first character is a number; the dummy is then named after
   * that number, which gives back the number.
   */
  lemma DummySpec(configFile: string, up: bool)
    ensures Commands(configFile, up).Some? <==>
              Parse(configFile).Some? && Parse(configFile).value.container.Some?
              && |Parse(configFile).value.container.value| >= 1
              && PyInt(Parse(configFile).value.container.value[1..]).Some?
    ensures Commands(configFile, up).Some? ==>
              var id := Dummy(Parse(configFile).value).value.1;
              PyInt(IntToStr(id)) == Some(id)
  {
    if Commands(configFile, up).Some? {
      PyIntRoundTrip(Dummy(Parse(configFile).value).value.1);
    }
  }
}
