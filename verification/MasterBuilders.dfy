/** The ladder's builder and any number of rendition builders of one video, sharing its
    stored files and its master playlist (app/worker/hls.py: `HlsLadderBuilder.build`;
    app/worker/renditions.py: `RenditionBuilder.run`; app/worker/tasks.py: `master_lock`).

    Each event is one storage call or one lock operation of one builder, or its death.
    A lock is freed by a release or by the death of its holder; its lease is taken to
    outlive a holder that goes on. */
module MasterBuilders {
  import opened Prelude
  import opened Text
  import opened MasterText
  import opened MasterPlaylist
  import opened MasterListing

  /** What does not change: the ladder's own playlist and files, and the files that
      the rendition behind a URI needs. */
  datatype Video = Video(ladderMaster: string, ladderFiles: seq<string>, filesOf: string -> seq<string>)

  datatype Builder =
    | Starts(kind: Kind)
    | Uploads(kind: Kind, rs: seq<Rendition>, todo: seq<string>)
    | Waits(kind: Kind, rs: seq<Rendition>)
    | Reads(kind: Kind, rs: seq<Rendition>)
    | Writes(kind: Kind, rs: seq<Rendition>, text: string)
    | Releases(kind: Kind, rs: seq<Rendition>)
    | Finished(kind: Kind, rs: seq<Rendition>)
    | Gone

  datatype State = State(store: set<string>, ladderTodo: seq<string>, master: Option<string>, lock: Option<nat>, builders: seq<Builder>)

  datatype Event =
    | LadderUploads
    | LadderListed
    | Queue(kind: Kind)
    | Look(b: nat, rs: seq<Rendition>)
    | Step(b: nat)
    | Dies(b: nat)

  function Begun(v: Video): State { State({}, v.ladderFiles, None, None, []) }

  /** Every file of every rendition of the list, in upload order. */
  function FilesOf(v: Video, rs: seq<Rendition>): seq<string> {
    Flatten(seq(|rs|, i requires 0 <= i < |rs| => v.filesOf(Uri(rs[i].plan.kind, rs[i].rung))))
  }

  function To(s: State, b: nat, to: Builder): State
    requires b < |s.builders|
  {
    s.(builders := s.builders[b := to])
  }

  /** The first look: a master that names the kind already, or a source that does not
      get this kind (an empty list), ends it. */
  function LookStep(v: Video, s: State, b: nat, rs: seq<Rendition>): State
    requires b < |s.builders|
  {
    if !s.builders[b].Starts? || s.master.None? then s
    else
      var kind := s.builders[b].kind;
      if !AllOf(kind, rs) then s
      else if Contains(s.master.value, Name(kind) + "/") || rs == [] then To(s, b, Gone)
      else To(s, b, Uploads(kind, rs, FilesOf(v, rs)))
  }

  function BuilderStep(s: State, b: nat): State
    requires b < |s.builders|
  {
    match s.builders[b]
    case Uploads(kind, rs, todo) =>
      if todo == [] then To(s, b, Waits(kind, rs))
      else To(s.(store := s.store + {todo[0]}), b, Uploads(kind, rs, todo[1..]))
    case Waits(kind, rs) => if s.lock.Some? then s else To(s.(lock := Some(b)), b, Reads(kind, rs))
    case Reads(kind, rs) => if s.master.None? then s else To(s, b, Writes(kind, rs, AddAll(s.master.value, rs)))
    case Writes(kind, rs, text) => To(s.(master := Some(text)), b, Releases(kind, rs))
    case Releases(kind, rs) => To(s.(lock := None), b, Finished(kind, rs))
    case _ => s
  }

  function Do(v: Video, s: State, e: Event): State {
    match e
    case LadderUploads =>
      if s.ladderTodo == [] then s else s.(store := s.store + {s.ladderTodo[0]}, ladderTodo := s.ladderTodo[1..])
    case LadderListed =>
      // The master is the ladder's last file.
      if s.ladderTodo != [] || s.master.Some? then s else s.(master := Some(v.ladderMaster))
    case Queue(kind) => s.(builders := s.builders + [Starts(kind)])
    case Look(b, rs) => if b < |s.builders| then LookStep(v, s, b, rs) else s
    case Step(b) => if b < |s.builders| then BuilderStep(s, b) else s
    case Dies(b) =>
      if b >= |s.builders| || s.builders[b].Finished? then s
      else To(s.(lock := if s.lock == Some(b) then None else s.lock), b, Gone)
  }

  function Run(v: Video, s: State, events: seq<Event>): State
    decreases |events|
  {
    if events == [] then s else Run(v, Do(v, s, events[0]), events[1..])
  }

  // --- What every step keeps ---------------------------------------------------------

  predicate AllIn(files: seq<string>, store: set<string>) {
    forall f :: f in files ==> f in store
  }

  /** Each URI the playlist lists names something whose files are all there. */
  ghost predicate Backed(v: Video, master: string, store: set<string>) {
    forall uri: string :: Listed(Parse(master), uri) ==> AllIn(v.filesOf(uri), store)
  }

  /** The ladder's own upload: a good playlist that names only what it uploaded. */
  ghost predicate SoundVideo(v: Video) {
    Good(v.ladderMaster)
    && forall uri: string, f :: Listed(Parse(v.ladderMaster), uri) && f in v.filesOf(uri) ==> f in v.ladderFiles
  }

  predicate Holding(x: Builder) { x.Reads? || x.Writes? || x.Releases? }

  ghost predicate AllNamed(master: string, rs: seq<Rendition>) {
    forall uri :: Names(rs, uri) ==> Listed(Parse(master), uri)
  }

  ghost predicate BuilderOk(v: Video, s: State, b: nat)
    requires b < |s.builders|
  {
    var x := s.builders[b];
    && (Holding(x) <==> s.lock == Some(b))
    && (!x.Gone? && !x.Starts? ==> AllOf(x.kind, x.rs) && s.master.Some?)
    && (x.Uploads? ==> forall f :: f in FilesOf(v, x.rs) ==> f in s.store || f in x.todo)
    && (x.Waits? || Holding(x) ==> AllIn(FilesOf(v, x.rs), s.store))
    && (x.Writes? ==> x.text == AddAll(s.master.value, x.rs))
    && (x.Releases? || x.Finished? ==> AllNamed(s.master.value, x.rs))
  }

  ghost predicate MasterOk(v: Video, s: State) {
    s.master.Some? ==>
      && Good(s.master.value)
      && SameLadder(Parse(v.ladderMaster), Parse(s.master.value))
      && Backed(v, s.master.value, s.store)
  }

  ghost predicate Inv(v: Video, s: State) {
    && MasterOk(v, s)
    && (forall f :: f in v.ladderFiles ==> f in s.store || f in s.ladderTodo)
    && (s.lock.Some? ==> s.lock.value < |s.builders|)
    && (forall b: nat :: b < |s.builders| ==> BuilderOk(v, s, b))
  }

  lemma {:induction false} FlattenHolds<T>(parts: seq<seq<T>>, i: nat, x: T)
    requires i < |parts| && x in parts[i]
    ensures x in Flatten(parts)
  {
    if i > 0 {
      FlattenHolds(parts[1..], i - 1, x);
    }
  }

  lemma NamedFiles(v: Video, rs: seq<Rendition>, uri: string, f: string)
    requires Names(rs, uri) && f in v.filesOf(uri)
    ensures f in FilesOf(v, rs)
  {
    hide Uri;
    var i :| 0 <= i < |rs| && Uri(rs[i].plan.kind, rs[i].rung) == uri;
    var parts := seq(|rs|, i requires 0 <= i < |rs| => v.filesOf(Uri(rs[i].plan.kind, rs[i].rung)));
    assert parts[i] == v.filesOf(uri);
    FlattenHolds(parts, i, f);
  }

  /** The text a builder writes under the lock is as good as the one it read. */
  lemma WrittenIsOk(v: Video, s: State, kind: Kind, rs: seq<Rendition>)
    requires MasterOk(v, s) && s.master.Some? && AllOf(kind, rs) && AllIn(FilesOf(v, rs), s.store)
    ensures MasterOk(v, s.(master := Some(AddAll(s.master.value, rs))))
    ensures AllNamed(AddAll(s.master.value, rs), rs)
    ensures forall uri :: Listed(Parse(s.master.value), uri) ==> Listed(Parse(AddAll(s.master.value, rs)), uri)
  {
    var m := s.master.value;
    AllKeepGood(m, rs, kind);
    LadderIsKept(m, rs, kind);
    hide Good, Parse, Listed, Names, AddAll, FilesOf, Only;
    forall uri: string ensures Listed(Parse(AddAll(m, rs)), uri) <==> Listed(Parse(m), uri) || Names(rs, uri) {
      AllListed(m, rs, kind, uri);
    }
    forall uri: string, f | Listed(Parse(AddAll(m, rs)), uri) && f in v.filesOf(uri) ensures f in s.store {
      if Names(rs, uri) {
        NamedFiles(v, rs, uri, f);
      } else {
        assert AllIn(v.filesOf(uri), s.store);
      }
    }
  }

  /** Builder `b`'s step leaves the others as they were when what they rely on stays. */
  lemma OthersStayOk(v: Video, s: State, t: State, b: nat)
    requires Inv(v, s) && b < |s.builders| == |t.builders|
    requires t.builders == s.builders[b := t.builders[b]] && BuilderOk(v, t, b)
    requires s.store <= t.store && t.ladderTodo == s.ladderTodo && MasterOk(v, t)
    requires t.lock == s.lock || (s.lock == None && t.lock == Some(b)) || (s.lock == Some(b) && t.lock == None)
    requires s.master.Some? ==> t.master.Some?
    requires t.master == s.master || (s.lock == Some(b) && s.master.Some?
               && forall uri :: Listed(Parse(s.master.value), uri) ==> Listed(Parse(t.master.value), uri))
    ensures Inv(v, t)
  {
    hide MasterOk, AllOf, FilesOf, AddAll, Listed, Parse, Names;
    forall i: nat | i < |t.builders| ensures BuilderOk(v, t, i) {
      if i != b {
        assert BuilderOk(v, s, i);
      }
    }
  }

  lemma MoreIsStored(v: Video, s: State, store: set<string>)
    requires MasterOk(v, s) && s.store <= store
    ensures MasterOk(v, s.(store := store))
  {
    hide Good, Parse, Listed, SameLadder;
    if s.master.Some? {
      forall uri: string | Listed(Parse(s.master.value), uri) ensures AllIn(v.filesOf(uri), store) {
        assert AllIn(v.filesOf(uri), s.store);
      }
    }
  }

  lemma BuildersDontMatter(v: Video, s: State, builders: seq<Builder>, lock: Option<nat>)
    requires MasterOk(v, s)
    ensures MasterOk(v, s.(builders := builders, lock := lock))
  {
  }

  lemma LadderKeepsInv(v: Video, s: State, e: Event)
    requires SoundVideo(v) && Inv(v, s) && (e.LadderUploads? || e.LadderListed?)
    ensures Inv(v, Do(v, s, e))
  {
    var t := Do(v, s, e);
    MasterStaysOk(v, s, e);
    hide MasterOk, AllOf, FilesOf, AddAll, Listed, Parse, Names, Good;
    forall i: nat | i < |t.builders| ensures BuilderOk(v, t, i) {
      assert BuilderOk(v, s, i);
    }
    if e.LadderUploads? && s.ladderTodo != [] {
      assert s.ladderTodo == [s.ladderTodo[0]] + t.ladderTodo;
    }
  }

  lemma MasterStaysOk(v: Video, s: State, e: Event)
    requires SoundVideo(v) && Inv(v, s) && (e.LadderUploads? || e.LadderListed?)
    ensures MasterOk(v, Do(v, s, e))
  {
    if e.LadderUploads? {
      hide Good, Parse, Listed, BuilderOk, SameLadder, SoundVideo, Backed;
      if s.ladderTodo != [] {
        MoreIsStored(v, s, s.store + {s.ladderTodo[0]});
      }
    } else {
      hide Good, Parse, Listed, BuilderOk, Only;
    }
  }

  lemma DiesKeepsInv(v: Video, s: State, b: nat)
    requires Inv(v, s)
    ensures Inv(v, Do(v, s, Dies(b)))
  {
    hide MasterOk, AllOf, FilesOf, AddAll, Listed, Parse, Names;
    var t := Do(v, s, Dies(b));
    if t != s {
      BuildersDontMatter(v, s, t.builders, t.lock);
      assert BuilderOk(v, s, b);
      OthersStayOk(v, s, t, b);
    }
  }

  lemma QueueKeepsInv(v: Video, s: State, kind: Kind)
    requires Inv(v, s)
    ensures Inv(v, Do(v, s, Queue(kind)))
  {
    hide MasterOk, AllOf, FilesOf, AddAll, Listed, Parse, Names;
    var t := Do(v, s, Queue(kind));
    BuildersDontMatter(v, s, t.builders, t.lock);
    forall i: nat | i < |t.builders| ensures BuilderOk(v, t, i) {
      if i < |s.builders| {
        assert BuilderOk(v, s, i);
      }
    }
  }

  lemma LookKeepsInv(v: Video, s: State, b: nat, rs: seq<Rendition>)
    requires Inv(v, s)
    ensures Inv(v, Do(v, s, Look(b, rs)))
  {
    hide MasterOk, AllOf, FilesOf, AddAll, Listed, Parse, Names, Contains;
    var t := Do(v, s, Look(b, rs));
    if t != s {
      BuildersDontMatter(v, s, t.builders, t.lock);
      assert BuilderOk(v, s, b);
      OthersStayOk(v, s, t, b);
    }
  }

  lemma WriteKeepsInv(v: Video, s: State, b: nat)
    requires Inv(v, s) && b < |s.builders| && s.builders[b].Writes?
    ensures Inv(v, BuilderStep(s, b))
  {
    assert BuilderOk(v, s, b);
    var x := s.builders[b];
    hide MasterOk, AllOf, FilesOf, AddAll, Listed, Parse, Names;
    WrittenIsOk(v, s, x.kind, x.rs);
    var t := BuilderStep(s, b);
    BuildersDontMatter(v, s.(master := Some(x.text)), t.builders, t.lock);
    OthersStayOk(v, s, t, b);
  }

  lemma UploadKeepsInv(v: Video, s: State, b: nat)
    requires Inv(v, s) && b < |s.builders| && s.builders[b].Uploads?
    ensures Inv(v, BuilderStep(s, b))
  {
    assert BuilderOk(v, s, b);
    hide MasterOk, AllOf, FilesOf, AddAll, Listed, Parse, Names;
    var t, todo := BuilderStep(s, b), s.builders[b].todo;
    MoreIsStored(v, s, t.store);
    BuildersDontMatter(v, s.(store := t.store), t.builders, t.lock);
    if todo != [] {
      assert todo == [todo[0]] + todo[1..];
    }
    OthersStayOk(v, s, t, b);
  }

  lemma BuilderKeepsInv(v: Video, s: State, b: nat)
    requires Inv(v, s)
    ensures Inv(v, Do(v, s, Step(b)))
  {
    hide MasterOk, AllOf, FilesOf, AddAll, Listed, Parse, Names;
    if b < |s.builders| {
      if s.builders[b].Writes? {
        WriteKeepsInv(v, s, b);
      } else if s.builders[b].Uploads? {
        UploadKeepsInv(v, s, b);
      } else {
        var t := BuilderStep(s, b);
        BuildersDontMatter(v, s, t.builders, t.lock);
        assert BuilderOk(v, s, b);
        if t != s {
          OthersStayOk(v, s, t, b);
        }
      }
    }
  }

  lemma StepKeepsInv(v: Video, s: State, e: Event)
    requires SoundVideo(v) && Inv(v, s)
    ensures Inv(v, Do(v, s, e))
  {
    hide Inv, SoundVideo, Do;
    match e
    case LadderUploads => LadderKeepsInv(v, s, e);
    case LadderListed => LadderKeepsInv(v, s, e);
    case Queue(kind) => QueueKeepsInv(v, s, kind);
    case Look(b, rs) => LookKeepsInv(v, s, b, rs);
    case Step(b) => BuilderKeepsInv(v, s, b);
    case Dies(b) => DiesKeepsInv(v, s, b);
  }

  lemma {:induction false} RunKeepsInv(v: Video, s: State, events: seq<Event>)
    requires SoundVideo(v) && Inv(v, s)
    ensures Inv(v, Run(v, s, events))
    decreases |events|
  {
    hide Inv, SoundVideo, Do;
    if events != [] {
      StepKeepsInv(v, s, events[0]);
      RunKeepsInv(v, Do(v, s, events[0]), events[1..]);
    }
  }

  // --- What it comes to, over every run ----------------------------------------------

  lemma Reachable(v: Video, events: seq<Event>)
    requires SoundVideo(v)
    ensures Inv(v, Run(v, Begun(v), events))
  {
    RunKeepsInv(v, Begun(v), events);
  }

  /** At every instant each URI in the stored master names a rendition, or a rung of
      the ladder, whose files are all stored; and the ladder's own part is as it was. */
  lemma PlayersFindEveryFile(v: Video, events: seq<Event>, uri: string)
    requires SoundVideo(v)
    ensures var s := Run(v, Begun(v), events);
            s.master.Some? ==>
              && (Listed(Parse(s.master.value), uri) ==> AllIn(v.filesOf(uri), s.store))
              && SameLadder(Parse(v.ladderMaster), Parse(s.master.value))
  {
    Reachable(v, events);
  }

  /** Whatever ran beside it, what a finished builder listed is in the master. */
  lemma NoEntryIsLost(v: Video, events: seq<Event>, b: nat, uri: string)
    requires SoundVideo(v)
    ensures var s := Run(v, Begun(v), events);
            b < |s.builders| && s.builders[b].Finished? && Names(s.builders[b].rs, uri) ==>
              s.master.Some? && Listed(Parse(s.master.value), uri)
  {
    Reachable(v, events);
    var s := Run(v, Begun(v), events);
    hide MasterOk, AllOf, FilesOf, AddAll, Listed, Parse, Names, Run;
    if b < |s.builders| {
      assert BuilderOk(v, s, b);
    }
  }
}
