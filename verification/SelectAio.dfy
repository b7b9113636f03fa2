/** The select-based watcher (SelectAIO): two descriptor sets, the highest watched descriptor, and a pipe to itself by
    which other threads bring the poll loop out of select. */
module SelectAio {
  type Fd = nat

  datatype Flag = ReadOnly | WriteOnly | ReadWrite

  datatype Aio = Aio(
    pipe: Fd,          // the pipe's read end
    rfds: set<Fd>,
    wfds: set<Fd>,
    high: Fd,          // highfds_
    bytes: nat)        // unread bytes in the pipe

  function Fresh(pipe: Fd): Aio {
    Aio(pipe, {pipe}, {}, pipe, 0)
  }

  predicate Watched(a: Aio, fd: Fd) {
    fd in a.rfds || fd in a.wfds
  }

  function Watch(a: Aio, fd: Fd, flag: Flag): Aio {
    Aio(a.pipe,
        if flag == WriteOnly then a.rfds else a.rfds + {fd},
        if flag == ReadOnly then a.wfds else a.wfds + {fd},
        if a.high <= fd then fd else a.high,
        a.bytes + 1)
  }

  /** The highest watched descriptor up to `h`, or the pipe if there is none. */
  function Rescan(a: Aio, h: Fd): Fd {
    if Watched(a, h) then h else if h == 0 then a.pipe else Rescan(a, h - 1)
  }

  function Unwatch(a: Aio, fd: Fd, flag: Flag): Aio {
    var b := a.(rfds := if flag == WriteOnly then a.rfds else a.rfds - {fd},
                wfds := if flag == ReadOnly then a.wfds else a.wfds - {fd},
                bytes := if flag == ReadWrite then a.bytes + 1 else a.bytes);
    b.(high := if !Watched(b, fd) && fd == a.high then Rescan(b, a.high) else a.high)
  }

  /** The watcher's own descriptor is always watched for reading, and `high` is the highest watched one: select looks at
      every descriptor that anyone waits for, and at none in vain. */
  ghost predicate AioOk(a: Aio) {
    && a.pipe in a.rfds
    && Watched(a, a.high)
    && forall fd :: fd in a.rfds || fd in a.wfds ==> fd <= a.high
  }

  lemma {:induction false} RescanFindsHighest(a: Aio, h: Fd)
    requires a.pipe in a.rfds && forall fd :: fd in a.rfds || fd in a.wfds ==> fd <= h
    ensures AioOk(a.(high := Rescan(a, h)))
  {
    if !Watched(a, h) && h > 0 {
      RescanFindsHighest(a, h - 1);
    }
  }

  lemma WatchKeeps(a: Aio, fd: Fd, flag: Flag)
    requires AioOk(a)
    ensures AioOk(Watch(a, fd, flag))
  {
  }

  lemma UnwatchKeeps(a: Aio, fd: Fd, flag: Flag)
    requires AioOk(a) && fd != a.pipe
    ensures AioOk(Unwatch(a, fd, flag))
    ensures flag == ReadWrite ==> !Watched(Unwatch(a, fd, flag), fd)
  {
    var b := Unwatch(a, fd, flag).(high := a.high);
    if !Watched(b, fd) && fd == a.high {
      RescanFindsHighest(b, a.high);
      assert Rescan(b, a.high) == Rescan(b.(high := Rescan(b, a.high)), a.high) by {
        RescanIgnoresHigh(b, a.high, Rescan(b, a.high));
      }
    }
  }

  lemma {:induction false} RescanIgnoresHigh(a: Aio, h: Fd, high: Fd)
    ensures Rescan(a, h) == Rescan(a.(high := high), h)
  {
    if h > 0 {
      RescanIgnoresHigh(a, h - 1, high);
    }
  }

  /** The members of `s` below `n`, in ascending order. */
  function Listed(s: set<Fd>, n: nat): seq<Fd> {
    if n == 0 then [] else Listed(s, n - 1) + if n - 1 in s then [n - 1] else []
  }

  lemma {:induction false} ListedMembers(s: set<Fd>, n: nat, fd: Fd)
    ensures fd in Listed(s, n) <==> fd in s && fd < n
  {
    if n > 0 {
      ListedMembers(s, n - 1, fd);
    }
  }

  lemma {:induction false} ListedAscends(s: set<Fd>, n: nat)
    ensures forall i, j :: 0 <= i < j < |Listed(s, n)| ==> Listed(s, n)[i] < Listed(s, n)[j]
    ensures forall i :: 0 <= i < |Listed(s, n)| ==> Listed(s, n)[i] < n
  {
    if n > 0 {
      ListedAscends(s, n - 1);
    }
  }

  class SelectAIO {
    const pipefd: Fd
    var rfds: set<Fd>
    var wfds: set<Fd>
    var highfds: Fd
    ghost var bytes: nat

    ghost function Value(): Aio
      reads this
    {
      Aio(pipefd, rfds, wfds, highfds, bytes)
    }

    constructor (pipe: Fd)
      ensures Value() == Fresh(pipe) && AioOk(Value())
    {
      pipefd := pipe;
      rfds, wfds, highfds, bytes := {pipe}, {}, pipe, 0;
    }

    method WatchFd(fd: Fd, flag: Flag)
      requires AioOk(Value())
      modifies this
      ensures Value() == Watch(old(Value()), fd, flag) && AioOk(Value())
    {
      if highfds <= fd {
        highfds := fd;
      }
      if flag == ReadOnly {
        rfds := rfds + {fd};
      } else if flag == WriteOnly {
        wfds := wfds + {fd};
      } else {
        rfds := rfds + {fd};
        wfds := wfds + {fd};
      }
      bytes := bytes + 1;
    }

    method IsWatched(fd: Fd, flag: Flag) returns (r: bool)
      ensures r <==> (flag != WriteOnly ==> fd in rfds) && (flag != ReadOnly ==> fd in wfds)
    {
      if flag == ReadOnly {
        return fd in rfds;
      } else if flag == WriteOnly {
        return fd in wfds;
      } else {
        return fd in rfds && fd in wfds;
      }
    }

    /** The result says whether the descriptor is now watched for nothing. */
    method UnwatchFd(fd: Fd, flag: Flag) returns (gone: bool)
      requires AioOk(Value()) && fd != pipefd
      modifies this
      ensures Value() == Unwatch(old(Value()), fd, flag) && AioOk(Value())
      ensures gone <==> !Watched(Value(), fd)
    {
      ghost var before := Value();
      if flag == ReadOnly {
        rfds := rfds - {fd};
      } else if flag == WriteOnly {
        wfds := wfds - {fd};
      } else {
        wfds := wfds - {fd};
        rfds := rfds - {fd};
      }
      if flag == ReadWrite {
        bytes := bytes + 1;
      }
      if fd !in rfds && fd !in wfds && fd == highfds {
        var newh := pipefd;
        var i := 0;
        while i <= highfds
          invariant i <= highfds + 1
          invariant newh == if i == 0 then pipefd else Rescan(Value(), i - 1)
        {
          if i in rfds {
            newh := i;
          } else if i in wfds {
            newh := i;
          }
          i := i + 1;
        }
        highfds := newh;
      }
      UnwatchKeeps(before, fd, flag);
      gone := fd !in rfds && fd !in wfds;
    }

    /** wait_ready after select has left `tr` and `tw`. */
    method Collect(tr: set<Fd>, tw: set<Fd>, high: Fd) returns (readable: seq<Fd>, writable: seq<Fd>)
      requires pipefd in tr && pipefd <= high ==> bytes > 0
      modifies this`bytes
      ensures bytes == old(bytes) - if pipefd in tr && pipefd <= high then 1 else 0
      ensures readable == Listed(tr - {pipefd}, high + 1)
      ensures writable == Listed(if pipefd in tr then tw - {pipefd} else tw, high + 1)
    {
      readable, writable := [], [];
      var fd := 0;
      while fd <= high
        invariant fd <= high + 1
        invariant bytes == old(bytes) - if pipefd in tr && pipefd < fd then 1 else 0
        invariant readable == Listed(tr - {pipefd}, fd)
        invariant writable == Listed(if pipefd in tr then tw - {pipefd} else tw, fd)
      {
        if fd == pipefd && fd in tr {
          bytes := bytes - 1;
        } else {
          if fd in tw {
            writable := writable + [fd];
          }
          if fd in tr {
            readable := readable + [fd];
          }
        }
        fd := fd + 1;
      }
    }
  }
}
