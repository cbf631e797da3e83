/** One Redis key as the Lua scripts of database.py and socket_manager.py use it.
    Times are in milliseconds; a key is alive strictly before its expiry. */
module RedisKeys {
  import opened Basics

  /** The text stored under a key, by what reads it: `Integer` is what INCR accepts,
      `Number` is a text only Lua's tonumber accepts ("5.0", "1e2"), `Word` neither. */
  datatype Text = Integer(n: int) | Number(r: real) | Word(w: string)

  datatype Entry = Entry(text: Text, expiry: Option<int>)

  type Slot = Option<Entry>

  const SECOND := 1000

  // Lua's tonumber; None is nil.
  function ToNumber(t: Text): Option<real> {
    match t
    case Integer(n) => Some(n as real)
    case Number(r) => Some(r)
    case Word(_) => None
  }

  predicate IsWhole(r: real) {
    r == r.Floor as real
  }

  function Live(slot: Slot, now: int): Slot {
    if slot.Some? && slot.value.expiry.Some? && slot.value.expiry.value <= now then None else slot
  }

  // TTL: -2 no key, -1 no expiry, else the remaining time rounded to seconds.
  function TtlOf(slot: Slot, now: int): int {
    match Live(slot, now)
    case None => -2
    case Some(e) => if e.expiry.None? then -1 else (e.expiry.value - now + SECOND / 2) / SECOND
  }

  /** The key on the server. Each method is one Redis command. */
  class Key {
    var now: int
    var slot: Slot

    constructor (now: int)
      ensures this.now == now && slot == None
    {
      this.now, this.slot := now, None;
    }

    method Get() returns (text: Option<Text>)
      ensures text == if Live(slot, now).Some? then Some(Live(slot, now).value.text) else None
    {
      var live := Live(slot, now);
      text := if live.Some? then Some(live.value.text) else None;
    }

    // None: an error reply, which aborts the calling script; the key is unchanged.
    method Incr() returns (n: Option<int>)
      modifies this`slot
      ensures match old(Live(slot, now))
              case None => n == Some(1) && slot == Some(Entry(Integer(1), None))
              case Some(e) =>
                if e.text.Integer?
                then n == Some(e.text.n + 1) && slot == Some(Entry(Integer(e.text.n + 1), e.expiry))
                else n == None && slot == old(slot)
    {
      var live := Live(slot, now);
      if live.None? {
        n, slot := Some(1), Some(Entry(Integer(1), None));
      } else if live.value.text.Integer? {
        var next := live.value.text.n + 1;
        n, slot := Some(next), Some(Entry(Integer(next), live.value.expiry));
      } else {
        n := None;
      }
    }

    method Expire(seconds: int)
      requires 0 < seconds
      modifies this`slot
      ensures slot == match old(Live(slot, now))
                      case None => old(slot)
                      case Some(e) => Some(e.(expiry := Some(now + seconds * SECOND)))
    {
      var live := Live(slot, now);
      if live.Some? {
        slot := Some(live.value.(expiry := Some(now + seconds * SECOND)));
      }
    }

    method Ttl() returns (t: int)
      ensures t == TtlOf(slot, now)
    {
      var live := Live(slot, now);
      if live.None? {
        t := -2;
      } else if live.value.expiry.None? {
        t := -1;
      } else {
        t := (live.value.expiry.value - now + SECOND / 2) / SECOND;
      }
    }

    // SET key text EX seconds
    method SetEx(text: Text, seconds: int)
      requires 0 < seconds
      modifies this`slot
      ensures slot == Some(Entry(text, Some(now + seconds * SECOND)))
    {
      slot := Some(Entry(text, Some(now + seconds * SECOND)));
    }
  }
}
