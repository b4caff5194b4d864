// Notification robots (pkg/notify/models/robot.go): converting the old
// robot and webhook configs into robot rows at start-up, the type check of
// a create request, and the contact type a robot answers to.
module NotifyRobots {
  import opened Wrappers
  import opened GoStrings

  /** The notify service's contact types that matter here: the three robot
      configs, the webhook config, the robot receiver type, and any other. */
  datatype ContactType =
    | FeishuRobot | DingtalkRobot | WorkwxRobot | Webhook | RobotContact | OtherContact(name: string)

  /** The robot `Type` column: one of the four robot types, or any other
      string (the zero value is `OtherType("")`). */
  datatype RobotType = Feishu | Dingtalk | Workwx | WebhookRobot | OtherType(text: string)

  /** A robot row. The last four fields say whether the row got the value
      the conversion writes: public, system scope, the default domain and
      the ready status. */
  datatype Robot = Robot(name: string, rtype: RobotType, address: string, lang: string,
                         isPublic: bool, systemScope: bool, defaultDomain: bool, ready: bool)

  /** A row of the config table: its type, the `webhook` entry of its
      content ("" when absent) and its deleted mark. */
  datatype Config = Config(ctype: ContactType, webhook: string, deleted: bool)

  /** A robot with every field at its zero value, as `make` fills a slice. */
  const ZeroRobot := Robot("", OtherType(""), "", "", false, false, false, false)

  /** The configs the start-up query selects: live rows of a robot type or
      of the webhook type. */
  predicate IsRobotConfig(c: Config)
  {
    !c.deleted && (c.ctype.FeishuRobot? || c.ctype.DingtalkRobot? || c.ctype.WorkwxRobot? || c.ctype.Webhook?)
  }

  /** Type and name a converted robot takes from its config's type; a type
      the switch does not list leaves both at their zero value. */
  function Naming(t: ContactType): (RobotType, string)
  {
    match t
    case FeishuRobot => (Feishu, "Feishu Robot")
    case DingtalkRobot => (Dingtalk, "Dingtalk Robot")
    case WorkwxRobot => (Workwx, "Workwx Robot")
    case Webhook => (WebhookRobot, "Webhook")
    case _ => (OtherType(""), "")
  }

  /** The four robot types get four different types and names. */
  lemma NamingDistinguishesRobotTypes(s: ContactType, t: ContactType)
    requires IsRobotConfig(Config(s, "", false)) && IsRobotConfig(Config(t, "", false))
    ensures Naming(s).0 == Naming(t).0 <==> s == t
    ensures Naming(s).1 == Naming(t).1 <==> s == t
    ensures !Naming(s).0.OtherType? && Naming(s).1 != ""
  {
  }

  /** The robot a config converts to before the webhook fan-out. */
  function Converted(c: Config): Robot
  {
    var (rtype, name) := Naming(c.ctype);
    Robot(name, rtype, c.webhook, "zh_CN", true, true, true, true)
  }

  /** The robots of a webhook with addresses `addrs`: the trimmed second
      to last addresses first and the untrimmed first address last. */
  function Fanout(robot: Robot, addrs: seq<string>): (rs: seq<Robot>)
    requires |addrs| >= 1
    ensures |rs| == |addrs|
    ensures forall k :: 0 <= k < |rs| - 1 ==> rs[k] == robot.(address := TrimSpace(addrs[k + 1]))
    ensures rs[|rs| - 1] == robot.(address := addrs[0])
  {
    seq(|addrs| - 1, k requires 0 <= k < |addrs| - 1 => robot.(address := TrimSpace(addrs[k + 1])))
      + [robot.(address := addrs[0])]
  }

  /** The robots one config yields: one robot, except that a webhook config
      with k comma-separated addresses yields k robots, the trimmed second
      to last addresses first and the untrimmed first address last. */
  function ConfigRobots(c: Config): (rs: seq<Robot>)
    ensures !c.ctype.Webhook? ==> rs == [Converted(c)]
    ensures c.ctype.Webhook? ==>
      var addrs := Split(c.webhook, ',');
      |rs| == |addrs| &&
      (forall k :: 0 <= k < |rs| - 1 ==> rs[k] == Converted(c).(address := TrimSpace(addrs[k + 1]))) &&
      rs[|rs| - 1] == Converted(c).(address := addrs[0])
  {
    if c.ctype.Webhook? then Fanout(Converted(c), Split(c.webhook, ','))
    else [Converted(c)]
  }

  /** Every robot a config yields carries the config's type and name, the
      zh_CN language and the public, system-scope, default-domain, ready
      settings; only the address varies. */
  lemma ConfigRobotsShareSettings(c: Config, k: nat)
    requires k < |ConfigRobots(c)|
    ensures ConfigRobots(c)[k] == Converted(c).(address := ConfigRobots(c)[k].address)
    ensures (ConfigRobots(c)[k].rtype, ConfigRobots(c)[k].name) == Naming(c.ctype)
  {
  }

  /** The robots of a list of configs, config by config. */
  function AllRobots(cs: seq<Config>): seq<Robot>
  {
    if cs == [] then [] else AllRobots(cs[..|cs| - 1]) + ConfigRobots(cs[|cs| - 1])
  }

  /** The insert list as the code builds it: the slice is made with length
      len(configs), so it starts with that many zero robots, and the
      converted robots are appended after them. */
  function InsertListAsWritten(cs: seq<Config>): seq<Robot>
  {
    seq(|cs|, _ => ZeroRobot) + AllRobots(cs)
  }

  /** As written, every run with configs also inserts one nameless,
      typeless, address-less robot per config; one Feishu config gives a
      blank robot followed by the Feishu robot. */
  lemma {:induction false} InsertListAsWrittenPadsWithZeroRobots(cs: seq<Config>)
    ensures |InsertListAsWritten(cs)| == |cs| + |AllRobots(cs)|
    ensures forall k :: 0 <= k < |cs| ==> InsertListAsWritten(cs)[k] == ZeroRobot
    ensures InsertListAsWritten(cs)[|cs|..] == AllRobots(cs)
    ensures InsertListAsWritten([Config(FeishuRobot, "https://hook", false)]) ==
      [ZeroRobot, Robot("Feishu Robot", Feishu, "https://hook", "zh_CN", true, true, true, true)]
  {
    var one := [Config(FeishuRobot, "https://hook", false)];
    assert one[..0] == [];
    assert AllRobots(one) == [Converted(one[0])];
  }

  /** The rows of a config table the start-up query selects, in table order. */
  function RobotConfigRows(cs: seq<Config>): (rows: seq<nat>)
    ensures forall k :: 0 <= k < |rows| ==> rows[k] < |cs| && IsRobotConfig(cs[rows[k]])
    ensures forall i :: 0 <= i < |cs| && IsRobotConfig(cs[i]) ==> i in rows
    ensures forall k, l :: 0 <= k < l < |rows| ==> rows[k] < rows[l]
  {
    if cs == [] then []
    else
      var before := RobotConfigRows(cs[..|cs| - 1]);
      before + (if IsRobotConfig(cs[|cs| - 1]) then [|cs| - 1] else [])
  }

  /** The selected configs themselves. */
  function Selected(cs: seq<Config>): seq<Config>
  {
    var rows := RobotConfigRows(cs);
    seq(|rows|, k requires 0 <= k < |rows| => cs[rows[k]])
  }

  /** The table after marking the given rows deleted. */
  function MarkDeleted(cs: seq<Config>, rows: seq<nat>): (r: seq<Config>)
    ensures |r| == |cs|
    ensures forall i :: 0 <= i < |cs| ==> r[i] == if i in rows then cs[i].(deleted := true) else cs[i]
  {
    seq(|cs|, i requires 0 <= i < |cs| => if i in rows then cs[i].(deleted := true) else cs[i])
  }

  /** A table without a live robot config selects no row. */
  lemma {:induction false} NothingSelected(cs: seq<Config>)
    requires forall i :: 0 <= i < |cs| ==> !IsRobotConfig(cs[i])
    ensures RobotConfigRows(cs) == []
  {
    if cs != [] {
      NothingSelected(cs[..|cs| - 1]);
    }
  }

  /** After the conversion has run to the end, running it again finds no
      config: every selected row is marked deleted. */
  lemma ConversionRunsOnce(cs: seq<Config>)
    ensures RobotConfigRows(MarkDeleted(cs, RobotConfigRows(cs))) == []
  {
    var after := MarkDeleted(cs, RobotConfigRows(cs));
    assert forall i :: 0 <= i < |after| ==> !IsRobotConfig(after[i]);
    NothingSelected(after);
  }

  /** Type check of a create request: the four robot types only. */
  function CheckRobotType(t: RobotType): (err: Option<Error>)
    ensures err.None? <==> t in {Feishu, Workwx, Dingtalk, WebhookRobot}
  {
    if t.OtherType? then Some(InputParameter("unkown type")) else None
  }

  datatype RobotCreateInput = RobotCreateInput(rtype: RobotType, address: string, lang: string)

  /** `ValidateCreateData`: the base checks (`baseErr`), the type check,
      the language (`langValid`, the opaque `language.Parse`), and a
      verification message sent to the address (`send`, the failure
      reasons the notify service returns, or its own error). */
  function ValidateCreateData(input: RobotCreateInput, baseErr: Option<Error>, langValid: string -> bool,
                              send: Result<seq<string>>): (r: Result<RobotCreateInput>)
    ensures r.Ok? <==> baseErr.None? && CheckRobotType(input.rtype).None? && langValid(input.lang) && send == Ok([])
    ensures r.Ok? ==> r.value == input
    ensures baseErr.None? && input.rtype.OtherType? ==> r == Err(InputParameter("unkown type"))
  {
    if baseErr.Some? then Err(baseErr.value)
    else if CheckRobotType(input.rtype).Some? then Err(CheckRobotType(input.rtype).value)
    else if !langValid(input.lang) then Err(InputParameter("invalid lang"))
    else if send.Err? then Err(Opaque("unable to validate address"))
    else if |send.value| > 0 then Err(InputParameter("invalid address"))
    else Ok(input)
  }

  /** `IsEnabledContactType` and `IsVerifiedContactType`: a robot is
      enabled and verified for the robot contact type and no other. */
  function IsEnabledContactType(ctype: ContactType): (b: bool)
    ensures b <==> ctype == RobotContact
  {
    ctype.RobotContact?
  }

  function IsVerifiedContactType(ctype: ContactType): (b: bool)
    ensures b == IsEnabledContactType(ctype)
  {
    ctype == RobotContact
  }

  /** The robot and config tables. Robot rows are kept in insertion order. */
  class NotifyStore {
    var configs: seq<Config>
    var robots: seq<Robot>

    constructor(configRows: seq<Config>)
      ensures configs == configRows && robots == []
    {
      configs, robots := configRows, [];
    }

    /** The robots of one config: for a webhook the loop over the second
        and later addresses, then the robot itself. */
    static method ConfigRobotsOf(c: Config) returns (more: seq<Robot>)
      ensures more == ConfigRobots(c)
    {
      var robot := Converted(c);
      more := [];
      if c.ctype.Webhook? {
        var addresses := Split(robot.address, ',');
        var j := 1;
        while j < |addresses|
          invariant 1 <= j <= |addresses|
          invariant more == ConfigRobots(c)[..j - 1]
        {
          more := more + [robot.(address := TrimSpace(addresses[j]))];
          j := j + 1;
        }
        robot := robot.(address := addresses[0]);
      }
      more := more + [robot];
    }

    /** The robot list built by the conversion loop, one config at a time. */
    static method BuildRobots(cs: seq<Config>) returns (rs: seq<Robot>)
      ensures rs == AllRobots(cs)
    {
      rs := [];
      var i := 0;
      while i < |cs|
        invariant 0 <= i <= |cs|
        invariant rs == AllRobots(cs[..i])
      {
        var more := ConfigRobotsOf(cs[i]);
        assert cs[..i + 1][..i] == cs[..i];
        rs := rs + more;
        i := i + 1;
      }
      assert cs[..|cs|] == cs;
    }

    /** Inserts the robots one by one, stopping at the first failing insert. */
    method InsertRobots(list: seq<Robot>, insertFails: nat -> bool) returns (n: nat)
      modifies this`robots
      ensures n == FirstFailure(insertFails, |list|)
      ensures robots == old(robots) + list[..n]
    {
      n := 0;
      while n < |list|
        invariant 0 <= n <= |list|
        invariant forall j :: 0 <= j < n ==> !insertFails(j)
        invariant robots == old(robots) + list[..n]
      {
        if insertFails(n) {
          return;
        }
        robots := robots + [list[n]];
        assert list[..n + 1] == list[..n] + [list[n]];
        n := n + 1;
      }
    }

    /** Marks the given (increasing) rows deleted one by one, stopping at
        the first failing update. */
    method MarkRows(rows: seq<nat>, markFails: nat -> bool) returns (m: nat)
      requires forall k :: 0 <= k < |rows| ==> rows[k] < |configs|
      requires forall k, l :: 0 <= k < l < |rows| ==> rows[k] < rows[l]
      modifies this`configs
      ensures m == FirstFailure(markFails, |rows|)
      ensures configs == MarkDeleted(old(configs), rows[..m])
    {
      m := 0;
      while m < |rows|
        invariant 0 <= m <= |rows|
        invariant forall j :: 0 <= j < m ==> !markFails(j)
        invariant configs == MarkDeleted(old(configs), rows[..m])
      {
        if markFails(m) {
          return;
        }
        assert rows[..m + 1] == rows[..m] + [rows[m]];
        configs := configs[rows[m] := configs[rows[m]].(deleted := true)];
        m := m + 1;
      }
    }

    /** `InitializeData`: select the robot configs (`fetchOk` is the query),
        build their robots, insert them one by one (`insertFails(k)`: the
        k-th insert fails), and only when every insert succeeded mark the
        configs deleted one by one (`markFails(k)`: the k-th update fails).
        The insert list here is the intended one, without the leading zero
        robots of the code as written. */
    method InitializeData(fetchOk: bool, insertFails: nat -> bool, markFails: nat -> bool)
      returns (err: Option<Error>)
      modifies this
      ensures !fetchOk || RobotConfigRows(old(configs)) == [] ==>
        robots == old(robots) && configs == old(configs) && (err.None? <==> fetchOk)
      ensures fetchOk ==>
        var list := AllRobots(Selected(old(configs)));
        var n := FirstFailure(insertFails, |list|);
        robots == old(robots) + list[..n] &&
        (n < |list| ==> err.Some? && configs == old(configs))
      ensures fetchOk && FirstFailure(insertFails, |AllRobots(Selected(old(configs)))|)
                           == |AllRobots(Selected(old(configs)))| ==>
        var rows := RobotConfigRows(old(configs));
        var m := FirstFailure(markFails, |rows|);
        configs == MarkDeleted(old(configs), rows[..m]) && (err.None? <==> m == |rows|)
    {
      if !fetchOk {
        return Some(Opaque("FetchModelObjects"));
      }
      var rows := RobotConfigRows(configs);
      if |rows| == 0 {
        assert AllRobots(Selected(configs)) == [];
        return None;
      }
      var list := BuildRobots(Selected(configs));
      var n := InsertRobots(list, insertFails);
      if n < |list| {
        return Some(Opaque("Insert"));
      }
      var m := MarkRows(rows, markFails);
      if m < |rows| {
        return Some(Opaque("MarkDelete"));
      }
      err := None;
    }
  }
}
