/**
 * The X10 API module: it turns a 'cmd'/'new' message for an X10 device into
 * an X10 command record (house, unit and function codes looked up in the
 * protocol tables), keeps the record in its table of pending commands under
 * the message id, and, when the interface reports the command done,
 * computes the device's new status and drops the record.
 */
module X10 {
  import opened Wrappers
  import opened Ascii
  import opened CodeTables
  import opened AddressScan
  import opened StatusRule

  type MsgId = string
  type DeviceId = string

  /** What the module reads of a gateway device: its type id, its address ("A3") and its current status. */
  datatype Device = Device(typeId: int, address: string, status: Status)

  /** What the module reads of a gateway message and its payload. */
  datatype Msg = Msg(msgID: MsgId, msgType: string, msgStatus: string, deviceid: DeviceId, cmd: string)

  /** `x10house`: the house letter and its code in both forms. */
  datatype HouseField = HouseField(value: char, x10string: char, x10hex: int)

  /** `x10number`: the unit number and its code in both forms. */
  datatype UnitField = UnitField(value: int, x10string: char, x10hex: int)

  /** `x10command`: the command as given and its function code (None for the two functions without one). */
  datatype CommandField = CommandField(origcmd: string, value: Option<int>, x10hex: Option<int>)

  /** The fields of an `X10Cmd` this model tracks; `created` is the creation time, supplied by the caller. */
  datatype X10Cmd = X10Cmd(
    x10uuid: MsgId,
    deviceid: DeviceId,
    x10house: HouseField,
    x10number: UnitField,
    x10command: CommandField,
    created: int)

  datatype Error =
    | UnknownDevice(id: DeviceId)        // KeyError on `self.devices[deviceid]`
    | BadAddress(reason: ScanError)      // ValueError or TypeError while parsing the address
    | UnknownHouse(house: char)          // KeyError on `houseToX10[house]`
    | UnknownUnit(unit: int)             // KeyError on `deviceToX10[number]`
    | UnknownFunction(name: string)      // KeyError on `functionToX10[cmd.upper()]`
    | NotPending(id: MsgId)              // KeyError on `del self.x10cmds[x10uuid]`

  /** A command record whose codes are the table entries for its house, unit and command. */
  predicate WellFormed(c: X10Cmd) {
    && HouseCode(c.x10house.value) == Some(Code(c.x10house.x10string, c.x10house.x10hex))
    && UnitCode(c.x10number.value) == Some(Code(c.x10number.x10string, c.x10number.x10hex))
    && FunctionCode(Upper(c.x10command.origcmd)) == Some(c.x10command.value)
    && c.x10command.x10hex == c.x10command.value
  }

  /**
   * The message gate: only 'cmd' messages with status 'new' are looked at;
   * their device must exist and they are processed when its type id is one
   * of `deviceTypes`. `Success(true)` means "process".
   */
  function Gate(msg: Msg, devices: map<DeviceId, Device>): (r: Result<bool, Error>)
    ensures r == Success(true) <==>
      msg.msgType == "cmd" && msg.msgStatus == "new" && msg.deviceid in devices &&
      (devices[msg.deviceid].typeId == 1 || devices[msg.deviceid].typeId == 2)
    ensures r.Failure? <==> msg.msgType == "cmd" && msg.msgStatus == "new" && msg.deviceid !in devices
  {
    if msg.msgType == "cmd" && msg.msgStatus == "new" then
      if msg.deviceid !in devices then Failure(UnknownDevice(msg.deviceid))
      else Success(devices[msg.deviceid].typeId in DeviceTypes)
    else Success(false)
  }

  /**
   * The command record `processNewCmdMsg` builds for a message: the
   * device's address is parsed, then the house, the unit and the
   * upper-cased command are looked up in that order, the first failing
   * lookup deciding the error.
   */
  function Translate(msg: Msg, devices: map<DeviceId, Device>, created: int): (r: Result<X10Cmd, Error>)
    ensures r.Success? ==> WellFormed(r.value)
    ensures r.Success? ==>
      && r.value.x10uuid == msg.msgID && r.value.deviceid == msg.deviceid
      && r.value.x10command.origcmd == msg.cmd && r.value.created == created
      && msg.deviceid in devices
      && ParseAddress(devices[msg.deviceid].address) == Success(RawAddress(r.value.x10house.value, r.value.x10number.value))
    ensures r.Failure? && (r.error.UnknownUnit? || r.error.UnknownFunction?) ==>
      && msg.deviceid in devices
      && ParseAddress(devices[msg.deviceid].address).Success?
      && HouseCode(ParseAddress(devices[msg.deviceid].address).value.house).Some?
      && (r.error.UnknownFunction? ==> UnitCode(ParseAddress(devices[msg.deviceid].address).value.unit).Some?)
  {
    if msg.deviceid !in devices then Failure(UnknownDevice(msg.deviceid))
    else match ParseAddress(devices[msg.deviceid].address)
      case Failure(e) => Failure(BadAddress(e))
      case Success(a) =>
        match HouseCode(a.house)
        case None => Failure(UnknownHouse(a.house))
        case Some(house) =>
          match UnitCode(a.unit)
          case None => Failure(UnknownUnit(a.unit))
          case Some(unit) =>
            var name := Upper(msg.cmd);
            match FunctionCode(name)
            case None => Failure(UnknownFunction(name))
            case Some(code) =>
              Success(X10Cmd(
                msg.msgID,
                msg.deviceid,
                HouseField(a.house, house.x10string, house.x10hex),
                UnitField(a.unit, unit.x10string, unit.x10hex),
                CommandField(msg.cmd, code, code),
                created))
  }

  /**
   * A command is registered exactly when its device exists, its address
   * parses to a house in A..P and a unit in 1..16, and its upper-cased
   * name is a function-table key (including the two without a code).
   */
  lemma TranslateSucceedsIff(msg: Msg, devices: map<DeviceId, Device>, created: int)
    ensures Translate(msg, devices, created).Success? <==>
      && msg.deviceid in devices
      && ParseAddress(devices[msg.deviceid].address).Success?
      && 'A' <= ParseAddress(devices[msg.deviceid].address).value.house <= 'P'
      && 1 <= ParseAddress(devices[msg.deviceid].address).value.unit <= 16
      && FunctionCode(Upper(msg.cmd)).Some?
  {
    if msg.deviceid in devices && ParseAddress(devices[msg.deviceid].address).Success? {
      var a := ParseAddress(devices[msg.deviceid].address).value;
      assert HouseCode(a.house).Some? <==> a.house in HouseToX10;
      assert UnitCode(a.unit).Some? <==> a.unit in DeviceToX10;
    }
  }

  /**
   * End to end for a device addressed "HU": the record carries the codes of
   * the (upper-cased) house letter and of the unit; a lower-case letter is
   * accepted.
   */
  lemma TranslateFormattedAddress(msg: Msg, devices: map<DeviceId, Device>, created: int, h: char, unit: nat)
    requires msg.deviceid in devices && devices[msg.deviceid].address == [h] + DecimalString(unit)
    requires 'A' <= UpperChar(h) <= 'P' && 1 <= unit <= 16 && IsLetter(h)
    requires FunctionCode(Upper(msg.cmd)).Some?
    ensures Translate(msg, devices, created).Success?
    ensures var c := Translate(msg, devices, created).value;
      c.x10house.value == UpperChar(h) && HouseCode(UpperChar(h)) == Some(Code(c.x10house.x10string, c.x10house.x10hex))
    ensures var c := Translate(msg, devices, created).value;
      c.x10number.value == unit && UnitCode(unit) == Some(Code(c.x10number.x10string, c.x10number.x10hex))
  {
    ParseFormattedAddress(h, unit);
    TranslateSucceedsIff(msg, devices, created);
  }

  /** `X10API.cmdDone` as written: the rule compares the `x10command` record itself. */
  function DoneStatusAsWritten(cmd: X10Cmd, devices: map<DeviceId, Device>): (r: Result<Status, Error>)
    ensures r.Success? <==> cmd.deviceid in devices
    ensures r.Failure? ==> r.error == UnknownDevice(cmd.deviceid)
  {
    if cmd.deviceid !in devices then Failure(UnknownDevice(cmd.deviceid))
    else Success(NewStatus(NonStr, devices[cmd.deviceid].status))
  }

  /**
   * `X10API.cmdDone` as intended: the rule compares the lower-cased name of
   * the command as given, and "brighten" is the bright step.
   */
  function DoneStatus(cmd: X10Cmd, devices: map<DeviceId, Device>): (r: Result<Status, Error>)
    ensures r.Success? <==> cmd.deviceid in devices
    ensures r.Failure? ==> r.error == UnknownDevice(cmd.deviceid)
    ensures r.Success? && r.value.IntStatus? ==> 0 <= r.value.n <= 100
  {
    if cmd.deviceid !in devices then Failure(UnknownDevice(cmd.deviceid))
    else Success(IntendedNewStatus(Str(Lower(cmd.x10command.origcmd)), devices[cmd.deviceid].status))
  }

  /** As written, every completed command leaves its device with status None. */
  lemma DoneStatusAsWrittenIsNone(cmd: X10Cmd, devices: map<DeviceId, Device>)
    requires cmd.deviceid in devices
    ensures DoneStatusAsWritten(cmd, devices) == Success(NoStatus)
  {
    NonStrMatchesNothing(devices[cmd.deviceid].status);
  }

  /**
   * With the correction, a completed ON gives 100, OFF gives 'off', DIM
   * and BRIGHTEN step the level by 12 within [0, 100] (88 and 100 when the
   * status is not an integer), and the other functions give None.
   */
  lemma DoneStatusByFunction(cmd: X10Cmd, devices: map<DeviceId, Device>)
    requires cmd.deviceid in devices
    ensures var name, s := Upper(cmd.x10command.origcmd), devices[cmd.deviceid].status;
      && (name == "ON" ==> DoneStatus(cmd, devices) == Success(IntStatus(100)))
      && (name == "OFF" ==> DoneStatus(cmd, devices) == Success(StrStatus("off")))
      && (name == "DIM" ==> DoneStatus(cmd, devices) == Success(NewStatus(Str("dim"), s)))
      && (name == "BRIGHTEN" ==> DoneStatus(cmd, devices) == Success(NewStatus(Str("bright"), s)))
      && (name in FunctionToX10 && name !in {"ON", "OFF", "DIM", "BRIGHTEN"} ==> DoneStatus(cmd, devices) == Success(NoStatus))
  {
    var orig := cmd.x10command.origcmd;
    var name := Upper(orig);
    LowerOfUpper(orig);
    if name == "ON" {
      assert Lower(orig) == Lower("ON") == "on";
    } else if name == "OFF" {
      assert Lower(orig) == Lower("OFF") == "off";
    } else if name == "DIM" {
      assert Lower(orig) == Lower("DIM") == "dim";
    } else if name == "BRIGHTEN" {
      assert Lower(orig) == Lower("BRIGHTEN") == "brighten";
    } else if name in FunctionToX10 {
      OtherFunctionName(orig);
    }
  }

  /** A function name other than the four the rule knows lower-cases to none of the rule's operands. */
  lemma OtherFunctionName(orig: string)
    requires Upper(orig) in FunctionToX10 && Upper(orig) !in {"ON", "OFF", "DIM", "BRIGHTEN"}
    ensures Lower(orig) !in {"on", "off", "dim", "bright", "brighten"}
  {
    var l := Lower(orig);
    LowerOfUpper(orig);
    assert Upper(l) == Upper(orig);
    assert Upper("on") == "ON" && Upper("off") == "OFF" && Upper("dim") == "DIM" && Upper("brighten") == "BRIGHTEN";
    assert Upper("bright") == "BRIGHT" && FunctionCode("BRIGHT") == None;
  }

  /** As written, the 'bright' branch never fires for a registered command: "BRIGHT" is not a function name. */
  lemma BrightNeverRegistered(cmd: X10Cmd)
    requires WellFormed(cmd)
    ensures Lower(cmd.x10command.origcmd) != "bright"
  {
    LowerOfUpper(cmd.x10command.origcmd);
    assert Upper("bright") == "BRIGHT";
    assert FunctionCode("BRIGHT") == None;
  }

  /**
   * A lamp at "B5" with status 100 receives "dim": the record carries the
   * codes of B, of unit 5 and of DIM; as written completion leaves the lamp
   * at None, with the correction at 88.
   */
  lemma DimScenario(devices: map<DeviceId, Device>, created: int)
    requires "lamp" in devices && devices["lamp"] == Device(2, "B5", IntStatus(100))
    ensures var msg := Msg("r1", "cmd", "new", "lamp", "dim");
      && Gate(msg, devices) == Success(true)
      && Translate(msg, devices, created).Success?
      && var c := Translate(msg, devices, created).value;
      && c.x10house == HouseField('B', 'E', 0x0E)
      && c.x10number == UnitField(5, '1', 0x01)
      && c.x10command == CommandField("dim", Some(0x04), Some(0x04))
      && DoneStatusAsWritten(c, devices) == Success(NoStatus)
      && DoneStatus(c, devices) == Success(IntStatus(88))
  {
    var msg := Msg("r1", "cmd", "new", "lamp", "dim");
    var c := X10Cmd("r1", "lamp", HouseField('B', 'E', 0x0E), UnitField(5, '1', 0x01), CommandField("dim", Some(0x04), Some(0x04)), created);
    DimRecord(msg, devices, created);
    assert Lower("dim") == "dim";
    NonStrMatchesNothing(IntStatus(100));
  }

  /** The record built for "dim" on a device addressed "B5". */
  lemma DimRecord(msg: Msg, devices: map<DeviceId, Device>, created: int)
    requires msg.deviceid in devices && devices[msg.deviceid].address == "B5" && msg.cmd == "dim"
    ensures Translate(msg, devices, created) == Success(X10Cmd(msg.msgID, msg.deviceid,
      HouseField('B', 'E', 0x0E), UnitField(5, '1', 0x01), CommandField("dim", Some(0x04), Some(0x04)), created))
  {
    assert ['B'] + DecimalString(5) == "B5";
    ParseFormattedAddress('B', 5);
    assert ParseAddress("B5") == Success(RawAddress('B', 5));
    assert Upper("dim") == "DIM";
    assert HouseCode('B') == Some(Code('E', 0x0E));
    assert UnitCode(5) == Some(Code('1', 0x01));
    assert FunctionCode("DIM") == Some(Some(0x04));
  }

  class X10Api {
    /** The gateway's devices, as the module reads them. */
    const devices: map<DeviceId, Device>

    /** `x10cmds`: the pending command records, by message id. */
    var x10cmds: map<MsgId, X10Cmd>

    /** Every pending record sits under its own message id and carries the table codes. */
    ghost predicate Valid()
      reads this
    {
      forall id | id in x10cmds :: x10cmds[id].x10uuid == id && WellFormed(x10cmds[id])
    }

    constructor (devices: map<DeviceId, Device>)
      ensures Valid()
      ensures this.devices == devices && x10cmds == map[]
    {
      this.devices := devices;
      x10cmds := map[];
    }

    /**
     * `message`: a 'cmd'/'new' message for a device of a handled type is
     * processed; any other message is ignored. The result is the record
     * registered, if any.
     */
    method Message(msg: Msg, created: int) returns (r: Result<Option<X10Cmd>, Error>)
      requires Valid()
      modifies this
      ensures Valid()
      ensures Gate(msg, devices).Failure? ==> r == Failure(Gate(msg, devices).error) && x10cmds == old(x10cmds)
      ensures Gate(msg, devices) == Success(false) ==> r == Success(None) && x10cmds == old(x10cmds)
      ensures Gate(msg, devices) == Success(true) ==>
        match Translate(msg, devices, created)
        case Success(c) => r == Success(Some(c)) && x10cmds == old(x10cmds)[msg.msgID := c]
        case Failure(e) => r == Failure(e) && x10cmds == old(x10cmds)
    {
      if msg.msgType == "cmd" && msg.msgStatus == "new" {
        if msg.deviceid !in devices {
          return Failure(UnknownDevice(msg.deviceid));
        }
        if devices[msg.deviceid].typeId in DeviceTypes {
          var p := ProcessNewCmdMsg(msg, created);
          r := if p.Success? then Success(Some(p.value)) else Failure(p.error);
          return;
        }
      }
      r := Success(None);
    }

    /**
     * `processNewCmdMsg`: build the record for the message and store it
     * under the message id, replacing any record already there. On any
     * failing lookup nothing is stored.
     */
    method ProcessNewCmdMsg(msg: Msg, created: int) returns (r: Result<X10Cmd, Error>)
      requires Valid()
      modifies this
      ensures Valid()
      ensures r == Translate(msg, devices, created)
      ensures r.Success? ==> x10cmds == old(x10cmds)[msg.msgID := r.value]
      ensures r.Failure? ==> x10cmds == old(x10cmds)
    {
      if msg.deviceid !in devices {
        return Failure(UnknownDevice(msg.deviceid));
      }
      var scanned := ScanAddress(devices[msg.deviceid].address);
      if scanned.Failure? {
        return Failure(BadAddress(scanned.error));
      }
      var house, number := scanned.value.house, scanned.value.unit;
      var houseCode := HouseCode(house);
      if houseCode.None? {
        return Failure(UnknownHouse(house));
      }
      var unitCode := UnitCode(number);
      if unitCode.None? {
        return Failure(UnknownUnit(number));
      }
      var name := Upper(msg.cmd);
      var functionCode := FunctionCode(name);
      if functionCode.None? {
        return Failure(UnknownFunction(name));
      }
      var cmd := X10Cmd(
        msg.msgID,
        msg.deviceid,
        HouseField(house, houseCode.value.x10string, houseCode.value.x10hex),
        UnitField(number, unitCode.value.x10string, unitCode.value.x10hex),
        CommandField(msg.cmd, functionCode.value, functionCode.value),
        created);
      x10cmds := x10cmds[msg.msgID := cmd];
      r := Success(cmd);
    }

    /** `removeX10Cmd`: drop the record under the command's id; an absent id is an error. */
    method RemoveX10Cmd(cmd: X10Cmd) returns (r: Outcome<Error>)
      requires Valid()
      modifies this
      ensures Valid()
      ensures r == if cmd.x10uuid in old(x10cmds) then Pass else Fail(NotPending(cmd.x10uuid))
      ensures x10cmds == old(x10cmds) - {cmd.x10uuid}
      ensures cmd in old(x10cmds).Values ==> r == Pass
      ensures forall id | id in old(x10cmds) && old(x10cmds)[id] == cmd :: x10cmds == old(x10cmds) - {id}
    {
      if cmd.x10uuid !in x10cmds {
        return Fail(NotPending(cmd.x10uuid));
      }
      x10cmds := x10cmds - {cmd.x10uuid};
      r := Pass;
    }

    /**
     * `X10Cmd.cmdDone`: compute the device's new status, then drop the
     * record. When the status cannot be computed (unknown device) the
     * record stays; when the id is no longer pending the removal fails.
     * The result is the status computed.
     */
    method CmdDone(cmd: X10Cmd) returns (r: Result<Status, Error>)
      requires Valid()
      modifies this
      ensures Valid()
      ensures cmd.deviceid !in devices ==> r == Failure(UnknownDevice(cmd.deviceid)) && x10cmds == old(x10cmds)
      ensures cmd.deviceid in devices ==> x10cmds == old(x10cmds) - {cmd.x10uuid}
      ensures cmd.deviceid in devices ==>
        r == if cmd.x10uuid in old(x10cmds) then DoneStatus(cmd, devices) else Failure(NotPending(cmd.x10uuid))
      ensures cmd.deviceid in devices && cmd in old(x10cmds).Values ==> r == DoneStatus(cmd, devices)
      ensures cmd.deviceid in devices ==>
        forall id | id in old(x10cmds) && old(x10cmds)[id] == cmd :: x10cmds == old(x10cmds) - {id}
    {
      var status := DoneStatus(cmd, devices);
      if status.Failure? {
        return status;
      }
      var removed := RemoveX10Cmd(cmd);
      if removed.Fail? {
        return Failure(removed.error);
      }
      r := status;
    }
  }

  /**
   * The pending-command lifecycle on one api object: a command registered
   * under an id is pending; completing it drops the id and yields the new
   * status; completing it again fails.
   */
  method Lifecycle(api: X10Api, msg: Msg, created: int) returns (first: Result<Status, Error>, second: Result<Status, Error>)
    requires api.Valid()
    requires Translate(msg, api.devices, created).Success?
    modifies api
    ensures api.Valid()
    ensures first == DoneStatus(Translate(msg, api.devices, created).value, api.devices)
    ensures first.Success?
    ensures second == Failure(NotPending(msg.msgID))
    ensures api.x10cmds == old(api.x10cmds) - {msg.msgID}
  {
    ghost var pending := api.x10cmds;
    var p := api.ProcessNewCmdMsg(msg, created);
    var c := p.value;
    assert c.x10uuid == msg.msgID && c.deviceid in api.devices;
    assert msg.msgID in api.x10cmds;
    first := api.CmdDone(c);
    second := api.CmdDone(c);
    InsertThenRemove(pending, msg.msgID, c);
  }

  /** Removing a key undoes inserting it, and removing it twice is removing it once. */
  lemma InsertThenRemove<K, V>(m: map<K, V>, k: K, v: V)
    ensures m[k := v] - {k} == m - {k}
    ensures m - {k} - {k} == m - {k}
  {
  }
}
