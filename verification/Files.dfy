/**
 One path in a directory, as the publish-once protocols use it. A file is an inode; `link` gives a
 second name to an inode and fails if the name is taken; writing goes through a descriptor to the inode.
 */
module Files {
  import opened Base

  datatype File = File(content: Bytes, mode: nat)

  /** Not accessible by group or others: no bit of 077. */
  predicate Private(mode: nat) {
    mode % 64 == 0
  }

  /** The inodes ever made, and the one the path names, if any. */
  datatype Fs = Fs(inodes: map<nat, File>, path: Option<nat>)

  ghost predicate FsOk(fs: Fs) {
    fs.path.Some? ==> fs.path.value in fs.inodes
  }

  /** What the path holds. */
  function AtPath(fs: Fs): Option<File> {
    if fs.path.Some? && fs.path.value in fs.inodes then Some(fs.inodes[fs.path.value]) else None
  }

  // ---- Publishing complete content: temporary file, chmod, write, sync, close, link ----

  datatype PubPc = Creating | Chmodding | Writing | Syncing | Closing | Linking | Published | Collided | Failed

  /** `fd` is the temporary file's inode once it exists. */
  datatype Pub = Pub(pc: PubPc, fd: Option<nat>, data: Bytes, mode: nat)

  datatype PubEvent = Create(inode: nat) | Proceed | ShortWrite(count: nat) | Error

  predicate Ended(pc: PubPc) {
    pc.Published? || pc.Collided? || pc.Failed?
  }

  /**
   One step of a publisher on the file system; a failed call is `Error`, and a failed write may have written a part.
   */
  function PubStep(fs: Fs, p: Pub, ev: PubEvent): Option<(Fs, Pub)> {
    match ev
    case Create(inode) =>
      if p.pc.Creating? && inode !in fs.inodes
      then Some((fs.(inodes := fs.inodes[inode := File([], 0x180)]), p.(pc := Chmodding, fd := Some(inode)))) else None
    case Error => if Ended(p.pc) then None else Some((fs, p.(pc := Failed)))
    case ShortWrite(count) =>
      if p.pc.Writing? && p.fd.Some? && p.fd.value in fs.inodes && count <= |p.data|
      then Some((fs.(inodes := fs.inodes[p.fd.value := fs.inodes[p.fd.value].(content := p.data[..count])]),
        p.(pc := Failed))) else None
    case Proceed =>
      if p.fd.None? || p.fd.value !in fs.inodes then None else
      var file := fs.inodes[p.fd.value];
      match p.pc
      case Chmodding => Some((fs.(inodes := fs.inodes[p.fd.value := file.(mode := p.mode)]), p.(pc := Writing)))
      case Writing => Some((fs.(inodes := fs.inodes[p.fd.value := file.(content := p.data)]), p.(pc := Syncing)))
      case Syncing => Some((fs, p.(pc := Closing)))
      case Closing => Some((fs, p.(pc := Linking)))
      case Linking => Some(if fs.path.None? then (fs.(path := p.fd), p.(pc := Published)) else (fs, p.(pc := Collided)))
      case _ => None
  }

  predicate Complete(fs: Fs, p: Pub) {
    p.fd.Some? && p.fd.value in fs.inodes && fs.inodes[p.fd.value] == File(p.data, p.mode)
  }

  /** What a publisher knows about its own file: not published before its link succeeds, complete from its write on. */
  predicate PubOk(fs: Fs, p: Pub) {
    && (p.fd.Some? ==> p.fd.value in fs.inodes)
    && (p.pc.Creating? ==> p.fd.None?)
    && (p.pc.Chmodding? || p.pc.Writing? ==> p.fd.Some?)
    && (p.pc.Writing? ==> fs.inodes[p.fd.value].mode == p.mode)
    && (p.pc.Syncing? || p.pc.Closing? || p.pc.Linking? || p.pc.Published? || p.pc.Collided? ==> Complete(fs, p))
    && (p.fd.Some? && !p.pc.Published? ==> fs.path != p.fd)
  }

  function NewPub(data: Bytes, mode: nat): Pub {
    Pub(Creating, None, data, mode)
  }

  /** A publisher's step keeps its own facts, and changes the path only by naming its own complete file there. */
  lemma PubStepOk(fs: Fs, p: Pub, ev: PubEvent)
    requires FsOk(fs) && PubOk(fs, p) && PubStep(fs, p, ev).Some?
    ensures var (gs, q) := PubStep(fs, p, ev).value;
      && FsOk(gs) && PubOk(gs, q) && q.data == p.data && q.mode == p.mode
      && (fs.path.Some? ==> gs.path == fs.path && AtPath(gs) == AtPath(fs))
      && (fs.path.None? && gs.path.Some? ==>
        q.pc.Published? && gs.path == q.fd && AtPath(gs) == Some(File(p.data, p.mode)))
      && (p.fd.Some? ==> q.fd == p.fd) && (q.fd.Some? && q.fd != p.fd ==> q.fd.value !in fs.inodes)
      && (q.pc.Published? ==> fs.path.None? && gs.path == q.fd)
      && (q.pc.Collided? ==> fs.path.Some?)
  {
  }

  /** What another publisher's step leaves alone. */
  predicate Undisturbed(fs: Fs, gs: Fs, fd: Option<nat>) {
    fd.Some? ==> fd.value in fs.inodes && fd.value in gs.inodes && gs.inodes[fd.value] == fs.inodes[fd.value]
  }

  /** A publisher writes only to its own temporary file. */
  lemma OthersUndisturbed(fs: Fs, p: Pub, ev: PubEvent, o: Pub)
    requires FsOk(fs) && PubOk(fs, p) && PubOk(fs, o) && PubStep(fs, p, ev).Some?
    requires o.fd.Some? ==> o.fd != p.fd
    ensures var gs := PubStep(fs, p, ev).value.0; Undisturbed(fs, gs, o.fd) && PubOk(gs, o)
    ensures o.fd.Some? ==> o.fd != PubStep(fs, p, ev).value.1.fd
  {
  }
}
