/** The decision function of the reconciler (src/reconcile/compute.rs) and what
    every decision it takes guarantees, over all file data and all sync modes. */
module Compute {
  import opened Defs

  function Replace(dst: Option<FileData>, dstSide: Side, src: Option<FileData>, srcSide: Side): Reconciliation {
    if dst.None? || src.None? || src.value.Directory? then Use(srcSide)
    else if dst.value.Directory? then Split(dstSide, Move)
    else Use(srcSide)
  }

  function Create(away: HalfMode, toward: HalfMode, propagate: Reconciliation, revert: Reconciliation): Reconciliation {
    if away.create.IsOn() then propagate
    else if toward.delete.IsForce() then revert
    else Unsync
  }

  function Remove(anc: FileData, file: FileData, away: HalfMode, toward: HalfMode,
                  propagate: Reconciliation, revert: Reconciliation): Reconciliation
  {
    if anc.MatchesContent(file) then
      if away.delete.IsOn() then propagate
      else if toward.create.IsForce() then revert
      else Unsync
    else
      if toward.create.IsOn() then revert
      else if away.delete.IsForce() then propagate
      else if away.delete.IsOn() || toward.update.IsOn() then Irreconcilable
      else Unsync
  }

  function NeedSplit(mode: SyncMode): Reconciliation {
    if mode.inbound.update.IsOn() || mode.outbound.update.IsOn() then
      if mode.inbound.create.IsOn() && mode.outbound.create.IsOn() then Split(Server, Delete)
      else Irreconcilable
    else Unsync
  }

  function Update(c: FileData, a: Option<FileData>, s: FileData, mode: SyncMode,
                  useClient: Reconciliation, useServer: Reconciliation): Reconciliation
  {
    var inUp := mode.inbound.update;
    var outUp := mode.outbound.update;
    if !c.Matches(s) && c.MatchesData(s) then
      var serverWins :=
        if a.Some? && c.Matches(a.value) then true
        else if a.Some? && s.Matches(a.value) then false
        else s.NewerThan(c);
      if serverWins then
        if inUp.IsOn() then useServer else if outUp.IsForce() then useClient else InSync
      else
        if outUp.IsOn() then useClient else if inUp.IsForce() then useServer else InSync
    else if a.Some? && a.value.Matches(c) then
      if inUp.IsOn() then useServer else if outUp.IsForce() then useClient else Unsync
    else if a.Some? && a.value.Matches(s) then
      if outUp.IsOn() then useClient else if inUp.IsForce() then useServer else Unsync
    else if a.Some? && a.value.MatchesContent(c) && a.value.MatchesContent(s) then
      if outUp.IsForce() then useClient
      else if inUp.IsForce() then useServer
      else if outUp.IsOn() then useClient
      else if inUp.IsOn() then useServer
      else Unsync
    else if a.Some? && a.value.MatchesContent(c) then
      if inUp.IsOn() then useServer
      else if outUp.IsForce() then useClient
      else NeedSplit(mode)
    else if a.Some? && a.value.MatchesContent(s) then
      if outUp.IsOn() then useClient
      else if inUp.IsForce() then useServer
      else NeedSplit(mode)
    else if inUp.IsForce() && outUp.IsForce() then
      if s.NewerThan(c) then useServer else useClient
    else if inUp.IsForce() then useServer
    else if outUp.IsForce() then useClient
    else NeedSplit(mode)
  }

  /** `choose_reconciliation` without the conflict tag, which only feeds the log. */
  function Choose(cli: Option<FileData>, anc: Option<FileData>, srv: Option<FileData>, mode: SyncMode): Reconciliation {
    var useServer := Replace(cli, Client, srv, Server);
    var useClient := Replace(srv, Server, cli, Client);
    match (cli, anc, srv)
    case (None, _, None) => InSync
    case (Some(c), None, None) =>
      if c.Special? then Unsync
      else Create(mode.outbound, mode.inbound, useClient, useServer)
    case (None, None, Some(s)) =>
      if s.Special? then Unsync
      else Create(mode.inbound, mode.outbound, useServer, useClient)
    case (Some(c), Some(a), None) =>
      if c.Special? then Unsync
      else Remove(a, c, mode.inbound, mode.outbound, useServer, useClient)
    case (None, Some(a), Some(s)) =>
      if s.Special? then Unsync
      else Remove(a, s, mode.outbound, mode.inbound, useClient, useServer)
    case (Some(c), _, Some(s)) =>
      if c.Matches(s) then InSync
      else if c.Special? || s.Special? then Unsync
      else Update(c, anc, s, mode, useClient, useServer)
  }

  // ----- Shape of a decision -----

  /** The file that `Use(src)` overwrites. */
  function DstOf(src: Side, cli: Option<FileData>, srv: Option<FileData>): Option<FileData> {
    if src.Client? then srv else cli
  }

  function SrcOf(src: Side, cli: Option<FileData>, srv: Option<FileData>): Option<FileData> {
    if src.Client? then cli else srv
  }

  /** A decision never overwrites a directory by something that exists and is not one;
      a split needs both ends, so each half of a split never splits again; a split that
      moves the ancestor renames a directory out of the way of a non-directory. */
  ghost predicate WellShaped(r: Reconciliation, cli: Option<FileData>, srv: Option<FileData>) {
    && (r.Use? ==> var dst, src := DstOf(r.src, cli, srv), SrcOf(r.src, cli, srv);
                   && (dst.Some? || src.Some?) && dst != src
                   && (IsDirectory(dst) && src.Some? ==> IsDirectory(src)))
    && (r.Split? ==> cli.Some? && srv.Some? && !cli.value.Matches(srv.value))
    && (r.Split? && r.fate.Move? ==>
          IsDirectory(SrcOf(r.renamed, cli, srv)) && !IsDirectory(SrcOf(Rev(r.renamed), cli, srv)))
    && (r.Split? && r.fate.Delete? ==> r.renamed.Server?)
    && (r.InSync? && IsDirectory(cli) ==> srv == cli)
    && (r.InSync? ==> (cli.None? <==> srv.None?) && (cli.Some? ==> cli.value.MatchesData(srv.value)))
    && (!r.InSync? ==> cli.Some? || srv.Some?)
  }

  lemma DecisionShape(cli: Option<FileData>, anc: Option<FileData>, srv: Option<FileData>, mode: SyncMode)
    ensures WellShaped(Choose(cli, anc, srv, mode), cli, srv)
  {
  }

  // ----- Flags as permissions -----

  /** What a decision may do to an end is allowed by that direction's flags. */
  ghost predicate Permitted(r: Reconciliation, cli: Option<FileData>, srv: Option<FileData>, mode: SyncMode) {
    match r
    case Use(src) =>
      var dst, data, half := DstOf(src, cli, srv), SrcOf(src, cli, srv), Toward(mode, Rev(src));
      && (dst.None? ==> half.create.IsOn())
      && (data.None? ==> half.delete.IsOn())
      && (dst.Some? && data.Some? ==> half.update.IsOn())
    case Split(side, _) => RenamePermitted(side, mode)
    case _ => true
  }

  predicate RenamePermitted(side: Side, mode: SyncMode) {
    || Toward(mode, side).update.IsOn()
    || (side.Server? && mode.inbound.create.IsOn() && mode.outbound.create.IsOn()
        && (mode.inbound.update.IsOn() || mode.outbound.update.IsOn()))
  }

  lemma DecisionPermitted(cli: Option<FileData>, anc: Option<FileData>, srv: Option<FileData>, mode: SyncMode)
    ensures Permitted(Choose(cli, anc, srv, mode), cli, srv, mode)
  {
  }

  /** Special files are never written, removed or renamed. */
  lemma SpecialUntouched(cli: Option<FileData>, anc: Option<FileData>, srv: Option<FileData>, mode: SyncMode)
    requires cli == Some(Special) || srv == Some(Special)
    ensures Choose(cli, anc, srv, mode) == if cli == srv then InSync else Unsync
  {
  }

  // ----- Modes that always bring the ends together -----

  /** Flags under which every difference between the ends is resolved. */
  predicate Decisive(mode: SyncMode) {
    var i, o := mode.inbound, mode.outbound;
    && (o.create.IsOn() || i.delete.IsForce())
    && (i.create.IsOn() || o.delete.IsForce())
    && (i.delete.IsOn() || o.create.IsForce())
    && (o.delete.IsOn() || i.create.IsForce())
    && (i.update.IsOn() || o.update.IsForce())
    && (o.update.IsOn() || i.update.IsForce())
    && (i.update.IsForce() || o.update.IsForce() || (i.create.IsOn() && o.create.IsOn()))
  }

  ghost predicate Resolves(cli: Option<FileData>, anc: Option<FileData>, srv: Option<FileData>, mode: SyncMode) {
    var r := Choose(cli, anc, srv, mode);
    !r.Unsync? && !r.Irreconcilable? && (r.InSync? ==> Agree(cli, srv))
  }

  predicate Plain(f: Option<FileData>) { f != Some(Special) }

  lemma DecisiveResolves(cli: Option<FileData>, anc: Option<FileData>, srv: Option<FileData>, mode: SyncMode)
    requires Decisive(mode) && Plain(cli) && Plain(srv)
    ensures Resolves(cli, anc, srv, mode)
  {
  }

  /** Exactly the decisive modes resolve every triple of files that are not special. */
  lemma DecisiveIff(mode: SyncMode)
    ensures Decisive(mode) <==>
            forall cli, anc, srv :: Plain(cli) && Plain(srv) ==> Resolves(cli, anc, srv, mode)
  {
    if Decisive(mode) {
      forall cli, anc, srv | Plain(cli) && Plain(srv) ensures Resolves(cli, anc, srv, mode) {
        DecisiveResolves(cli, anc, srv, mode);
      }
    } else {
      var f, g, h := Some(Regular(0, 0, 0, 0)), Some(Regular(0, 0, 0, 1)), Some(Regular(0, 0, 0, 2));
      if Resolves(f, None, None, mode) && Resolves(None, None, f, mode)
         && Resolves(f, f, None, mode) && Resolves(None, f, f, mode)
         && Resolves(f, f, g, mode) && Resolves(g, f, f, mode) {
        assert !Resolves(f, h, g, mode);
      }
    }
  }

  // ----- What an overwritten file loses -----

  /** No update is forced, and a forced delete never beats a create that is allowed. */
  predicate Gentle(mode: SyncMode) {
    && !mode.inbound.update.IsForce() && !mode.outbound.update.IsForce()
    && (mode.inbound.delete.IsForce() ==> mode.outbound.create.IsOn())
    && (mode.outbound.delete.IsForce() ==> mode.inbound.create.IsOn())
  }

  /** Whatever `Use` destroys has the ancestor's content or that of its replacement. */
  ghost predicate LosesNothing(cli: Option<FileData>, anc: Option<FileData>, srv: Option<FileData>, mode: SyncMode) {
    var r := Choose(cli, anc, srv, mode);
    r.Use? ==>
      var dst, src := DstOf(r.src, cli, srv), SrcOf(r.src, cli, srv);
      dst.Some? ==> || (anc.Some? && anc.value.MatchesContent(dst.value))
                    || (src.Some? && src.value.MatchesContent(dst.value))
  }

  lemma GentleLosesNothing(cli: Option<FileData>, anc: Option<FileData>, srv: Option<FileData>, mode: SyncMode)
    requires Gentle(mode)
    ensures LosesNothing(cli, anc, srv, mode)
  {
  }

  /** Exactly the gentle modes never destroy content that nothing else holds. */
  lemma GentleIff(mode: SyncMode)
    ensures Gentle(mode) <==> forall cli, anc, srv :: LosesNothing(cli, anc, srv, mode)
  {
    if Gentle(mode) {
      forall cli, anc, srv ensures LosesNothing(cli, anc, srv, mode) { GentleLosesNothing(cli, anc, srv, mode); }
    } else {
      var f, g, h := Some(Regular(0, 0, 0, 0)), Some(Regular(0, 0, 0, 1)), Some(Regular(0, 0, 0, 2));
      if LosesNothing(f, h, g, mode) && LosesNothing(f, None, None, mode) {
        assert !LosesNothing(None, None, f, mode);
      }
    }
  }

  // ----- What the next pass decides -----

  /** The next pass over this triple writes nothing: it is in sync with a truthful
      ancestor, left alone on purpose, or a directory that was to be deleted but is
      kept because something in it is. */
  predicate Settled(cli: Option<FileData>, anc: Option<FileData>, srv: Option<FileData>, mode: SyncMode) {
    match Choose(cli, anc, srv, mode)
    case InSync => anc == cli
    case Unsync => true
    case Irreconcilable => true
    case Use(src) => var dst := DstOf(src, cli, srv);
                     SrcOf(src, cli, srv).None? && IsDirectory(dst) && anc == dst
    case Split(_, _) => false
  }

  /** The ends differ only in modification time. */
  predicate TouchedOnly(cli: Option<FileData>, srv: Option<FileData>) {
    cli.Some? && srv.Some? && !cli.value.Matches(srv.value) && cli.value.MatchesData(srv.value)
  }

  /** A mode in which a modification time left alone by one pass is picked up by the next. */
  predicate Echoes(mode: SyncMode) {
    mode.inbound.update.On? && mode.outbound.update.Off?
  }

  /** `InSync` records the client's data in the ancestor. The next pass agrees with it
      unless the ends differ only in modification time, the mode carries updates inward
      but not outward, and this pass judged the client's time to be the new one. */
  lemma InSyncSettlesIff(cli: Option<FileData>, anc: Option<FileData>, srv: Option<FileData>, mode: SyncMode)
    requires Choose(cli, anc, srv, mode).InSync?
    ensures Settled(cli, cli, srv, mode) <==>
            !(Echoes(mode) && TouchedOnly(cli, srv))
    ensures !Settled(cli, cli, srv, mode) ==> Choose(cli, cli, srv, mode) == Use(Server)
  {
  }

  /** Once both ends hold the same data, every mode and every ancestor gives `InSync`;
      with a truthful ancestor nothing is left to write. */
  lemma EqualEndsInSync(f: Option<FileData>, anc: Option<FileData>, mode: SyncMode)
    ensures Choose(f, anc, f, mode).InSync?
    ensures Settled(f, f, f, mode)
  {
  }

  /** A directory whose delete is permitted is chosen for deletion whenever the other
      end lacks it and the ancestor holds it unchanged. */
  lemma DoomedAgain(dir: FileData, side: Side, mode: SyncMode)
    requires dir.Directory? && Toward(mode, side).delete.IsOn()
    ensures var c, s := if side.Client? then Some(dir) else None, if side.Client? then None else Some(dir);
            Choose(c, Some(dir), s, mode) == Use(Rev(side)) && Settled(c, Some(dir), s, mode)
  {
  }

  // ----- Symmetry -----

  function MirrorMode(mode: SyncMode): SyncMode { SyncMode(mode.outbound, mode.inbound) }

  function MirrorDecision(r: Reconciliation): Reconciliation {
    match r
    case Use(src) => Use(Rev(src))
    case Split(side, fate) => Split(Rev(side), fate)
    case _ => r
  }

  /** Both ends have changed a file since it was in sync, and not just its time. */
  predicate BothChanged(cli: Option<FileData>, anc: Option<FileData>, srv: Option<FileData>) {
    && cli.Some? && srv.Some? && !cli.value.Special? && !srv.value.Special? && !cli.value.MatchesData(srv.value)
    && !(anc.Some? && (anc.value.Matches(cli.value) || anc.value.Matches(srv.value)))
  }

  predicate SameContent(anc: Option<FileData>, file: Option<FileData>) {
    anc.Some? && file.Some? && anc.value.MatchesContent(file.value)
  }

  /** The flags allow, but do not force, a conflict to be resolved by keeping both files. */
  predicate KeepsBoth(mode: SyncMode) {
    && (mode.inbound.update.IsOn() || mode.outbound.update.IsOn())
    && mode.inbound.create.IsOn() && mode.outbound.create.IsOn()
  }

  /** The triples on which the two ends are not treated alike: a tie of forced updates goes
      to the client, so does a change of mode on both ends, and it is the server's file that
      is renamed when both are kept. */
  predicate Lopsided(cli: Option<FileData>, anc: Option<FileData>, srv: Option<FileData>, mode: SyncMode) {
    var i, o := mode.inbound.update, mode.outbound.update;
    var asCli, asSrv := SameContent(anc, cli), SameContent(anc, srv);
    && BothChanged(cli, anc, srv)
    && if asCli && asSrv then i.IsOn() && i == o
       else if asCli then !i.IsOn() && !o.IsForce() && KeepsBoth(mode)
       else if asSrv then !o.IsOn() && !i.IsForce() && KeepsBoth(mode)
       else if i.IsForce() && o.IsForce() then !cli.value.NewerThan(srv.value) && !srv.value.NewerThan(cli.value)
       else !i.IsForce() && !o.IsForce() && KeepsBoth(mode)
  }

  /** Swapping the ends and the directions of the mode swaps the decision, on exactly the
      other triples. */
  lemma SymmetricIff(cli: Option<FileData>, anc: Option<FileData>, srv: Option<FileData>, mode: SyncMode)
    ensures Choose(srv, anc, cli, MirrorMode(mode)) == MirrorDecision(Choose(cli, anc, srv, mode)) <==>
        !Lopsided(cli, anc, srv, mode)
  {
  }
}
