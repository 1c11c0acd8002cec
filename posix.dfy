/**
 * The operating-system resources the bridge acquires and must release:
 * descriptors, stdio streams over descriptors, unreaped child processes, and
 * temporary files on disk. Each system call is a method whose success or
 * failure is an input, so every failure path of a caller can be followed.
 */
module Posix {
  import opened Wrappers

  /** An open resource: a descriptor, a FILE* stream owning its descriptor, or a child not yet reaped. */
  datatype Handle = Fd(fd: int) | Stream(fd: int) | Child(pid: int)

  /** A FILE* value: null, or a stream over a descriptor. */
  datatype FilePtr = Null | File(fd: int)

  function Id(h: Handle): int {
    match h
    case Fd(fd) => fd
    case Stream(fd) => fd
    case Child(pid) => pid
  }

  /** The kernel's view of this process: what is open, what is on disk, and the next number it hands out. */
  class Kernel {
    var open: set<Handle>
    var files: set<string>
    var nextId: int

    /** Every open resource has a number already handed out, so new ones are fresh. */
    ghost predicate Valid()
      reads this
    {
      3 <= nextId && forall h :: h in open ==> Id(h) < nextId
    }

    constructor (onDisk: set<string>)
      ensures Valid() && open == {} && files == onDisk
    {
      open := {};
      files := onDisk;
      nextId := 3;
    }

    /** pipe(): two fresh descriptors (read end, write end), or failure with nothing acquired. */
    method Pipe(ok: bool) returns (r: Option<(int, int)>)
      requires Valid()
      modifies this
      ensures Valid() && files == old(files) && nextId >= old(nextId)
      ensures ok ==> r == Some((old(nextId), old(nextId) + 1))
                     && open == old(open) + {Fd(old(nextId)), Fd(old(nextId) + 1)}
      ensures !ok ==> r == None && open == old(open)
    {
      if ok {
        r := Some((nextId, nextId + 1));
        open := open + {Fd(nextId), Fd(nextId + 1)};
        nextId := nextId + 2;
      } else {
        r := None;
      }
    }

    /** close(fd). */
    method Close(fd: int)
      requires Valid()
      modifies this
      ensures Valid() && files == old(files) && nextId == old(nextId)
      ensures open == old(open) - {Fd(fd)}
    {
      open := open - {Fd(fd)};
    }

    /** fork(), parent side: a fresh positive child id, or -1 with nothing acquired. */
    method Fork(ok: bool) returns (pid: int)
      requires Valid()
      modifies this
      ensures Valid() && files == old(files) && nextId >= old(nextId)
      ensures ok ==> pid == old(nextId) && pid > 0 && open == old(open) + {Child(pid)}
      ensures !ok ==> pid == -1 && open == old(open)
    {
      if ok {
        pid := nextId;
        open := open + {Child(pid)};
        nextId := nextId + 1;
      } else {
        pid := -1;
      }
    }

    /** fdopen(fd, "r"): on success the stream takes over the descriptor; on failure the descriptor stays open. */
    method Fdopen(fd: int, ok: bool) returns (f: FilePtr)
      requires Valid()
      modifies this
      ensures Valid() && files == old(files) && nextId == old(nextId)
      ensures ok && Fd(fd) in old(open) ==> f == File(fd) && open == old(open) - {Fd(fd)} + {Stream(fd)}
      ensures !(ok && Fd(fd) in old(open)) ==> f == Null && open == old(open)
    {
      if ok && Fd(fd) in open {
        f := File(fd);
        open := open - {Fd(fd)} + {Stream(fd)};
      } else {
        f := Null;
      }
    }

    /** fclose(f): releases the stream and its descriptor. */
    method Fclose(f: FilePtr)
      requires Valid() && f.File?
      modifies this
      ensures Valid() && files == old(files) && nextId == old(nextId)
      ensures open == old(open) - {Stream(f.fd)}
    {
      open := open - {Stream(f.fd)};
    }

    /** kill(pid, SIGTERM): the child ends but stays to be reaped. */
    method Kill(pid: int)
      requires Valid()
      modifies this
      ensures Valid() && files == old(files) && nextId == old(nextId) && open == old(open)
    {
    }

    /** A waitpid(pid) that returns: the child is reaped (or was no child of ours). */
    method Reap(pid: int)
      requires Valid()
      modifies this
      ensures Valid() && files == old(files) && nextId == old(nextId)
      ensures open == old(open) - {Child(pid)}
    {
      open := open - {Child(pid)};
    }

    /** socket(): a fresh descriptor, or -1 with nothing acquired. */
    method Socket(ok: bool) returns (fd: int)
      requires Valid()
      modifies this
      ensures Valid() && files == old(files) && nextId >= old(nextId)
      ensures ok ==> fd == old(nextId) && open == old(open) + {Fd(fd)}
      ensures !ok ==> fd == -1 && open == old(open)
    {
      if ok {
        fd := nextId;
        open := open + {Fd(fd)};
        nextId := nextId + 1;
      } else {
        fd := -1;
      }
    }

    /** Creating a named temporary file. */
    method CreateFile(path: string)
      requires Valid()
      modifies this
      ensures Valid() && open == old(open) && nextId == old(nextId)
      ensures files == old(files) + {path}
    {
      files := files + {path};
    }

    /** remove(path) / unlink(path), whose failure is ignored by every caller here. */
    method Remove(path: string)
      requires Valid()
      modifies this
      ensures Valid() && open == old(open) && nextId == old(nextId)
      ensures files == old(files) - {path}
    {
      files := files - {path};
    }
  }
}
