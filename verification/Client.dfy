/** The server-to-client messages that concern game objects, and the client's table of them. */
module Client {
  import opened Board

  datatype Direction = Up | Down | Left | Right
  datatype Mode = Idle | Roaming | Chase

  datatype Message =
    | AvatarInfo(id: int, at: Tile, dir: Direction)
    | AddPlayer(id: int, at: Tile, dir: Direction, hp: int, maxHp: int, mode: Mode)
    | RemovePlayer(id: int)
    | MovePlayer(id: int, at: Tile, dir: Direction)
    | StatInfo(id: int, hp: int, maxHp: int, mode: Mode)
    | DamageInfo(target: int, hp: int)
    /** Chat lines and projectiles: shown, but no object changes. */
    | Notice(from: int)

  /** One ObjInfo of the client. */
  datatype Entry = Entry(at: Tile, dir: Direction, hp: int, maxHp: int, mode: Mode)

  /** The avatar's id, place and facing, and the objects the client draws. */
  datatype Table = Table(me: int, at: Tile, dir: Direction, objs: map<int, Entry>)

  const BLANK: Table := Table(-1, Tile(0, 0), Down, map[])

  function Handle(t: Table, m: Message): Table {
    match m
    case AvatarInfo(id, at, dir) => t.(me := id, at := at, dir := dir)
    case AddPlayer(id, at, dir, hp, maxHp, mode) => t.(objs := t.objs[id := Entry(at, dir, hp, maxHp, mode)])
    case RemovePlayer(id) => t.(objs := t.objs - {id})
    case MovePlayer(id, at, dir) =>
      if id == t.me then t.(at := at, dir := dir)
      else if id in t.objs then t.(objs := t.objs[id := t.objs[id].(at := at, dir := dir)])
      else t
    case StatInfo(id, hp, maxHp, mode) =>
      if id != t.me && id in t.objs then t.(objs := t.objs[id := t.objs[id].(hp := hp, maxHp := maxHp, mode := mode)])
      else t
    case DamageInfo(target, hp) =>
      if target in t.objs then t.(objs := t.objs[target := t.objs[target].(hp := hp)]) else t
    case Notice(_) => t
  }

  /** What a client holds after receiving these messages in order. */
  ghost function Replay(ms: seq<Message>): Table {
    if ms == [] then BLANK else Handle(Replay(ms[..|ms| - 1]), ms[|ms| - 1])
  }

  lemma ReplayOneMore(ms: seq<Message>, m: Message)
    ensures Replay(ms + [m]) == Handle(Replay(ms), m)
  {
    assert (ms + [m])[..|ms|] == ms;
  }

  class GameClient {
    var myId: int
    var myAt: Tile
    var myDir: Direction
    var objs: map<int, Entry>

    ghost function View(): Table
      reads this
    {
      Table(myId, myAt, myDir, objs)
    }

    constructor ()
      ensures View() == BLANK
    {
      myId, myAt, myDir, objs := -1, Tile(0, 0), Down, map[];
    }

    method HandlePacket(m: Message)
      modifies this
      ensures View() == Handle(old(View()), m)
    {
      match m {
        case AvatarInfo(id, at, dir) =>
          myId, myAt, myDir := id, at, dir;
        case AddPlayer(id, at, dir, hp, maxHp, mode) =>
          objs := objs[id := Entry(at, dir, hp, maxHp, mode)];
        case RemovePlayer(id) =>
          objs := objs - {id};
        case MovePlayer(id, at, dir) =>
          if id == myId {
            myAt, myDir := at, dir;
          } else if id in objs {
            objs := objs[id := objs[id].(at := at, dir := dir)];
          }
        case StatInfo(id, hp, maxHp, mode) =>
          if id != myId && id in objs {
            objs := objs[id := objs[id].(hp := hp, maxHp := maxHp, mode := mode)];
          }
        case DamageInfo(target, hp) =>
          if target in objs {
            objs := objs[target := objs[target].(hp := hp)];
          }
        case Notice(_) =>
      }
    }

    /** Handling a whole stream of messages replays it. */
    method HandleAll(ms: seq<Message>)
      requires View() == BLANK
      modifies this
      ensures View() == Replay(ms)
    {
      for i := 0 to |ms|
        invariant View() == Replay(ms[..i])
      {
        assert ms[..i + 1] == ms[..i] + [ms[i]];
        ReplayOneMore(ms[..i], ms[i]);
        HandlePacket(ms[i]);
      }
      assert ms[..|ms|] == ms;
    }
  }
}
