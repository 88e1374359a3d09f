/** Torrents as qBittorrent reports them, as the daemon normalises them, and the
    field-level merge between the two (state/syncer.go). */
module Torrents {
  import opened Options

  type Hash = string

  const ETA_UNKNOWN := 8640000
  const CATEGORY_CAP := 128

  /** The normalised state vocabulary; NoPhase is Go's zero value "". */
  datatype Phase = NoPhase | Downloading | Seeding | Paused | Queued | Checking | Moving | Errored | Other

  datatype Torrent = Torrent(
    hash: Hash, name: string, state: Phase, progress: real, dlSpeed: int, upSpeed: int,
    eta: int, ratio: real, category: string, size: int, completed: int)

  /** A complete torrent object inside the backend. */
  datatype RawTorrent = RawTorrent(
    name: string, state: string, progress: real, dlSpeed: int, upSpeed: int,
    eta: int, ratio: real, category: string, size: int, completed: int)

  /** A torrent object on the wire: an absent field is None. */
  datatype Partial = Partial(
    name: Option<string>, state: Option<string>, progress: Option<real>, dlSpeed: Option<int>, upSpeed: Option<int>,
    eta: Option<int>, ratio: Option<real>, category: Option<string>, size: Option<int>, completed: Option<int>)

  const ZERO := Torrent("", "", NoPhase, 0.0, 0, 0, 0, 0.0, "", 0, 0)

  predicate HexDigit(c: char) {
    '0' <= c <= '9' || 'a' <= c <= 'f' || 'A' <= c <= 'F'
  }

  predicate ValidHash(h: Hash) {
    (|h| == 40 || |h| == 64) && forall i :: 0 <= i < |h| ==> HexDigit(h[i])
  }

  function CapRunes(s: string, max: nat): string
    requires max > 0
  {
    if |s| <= max then s else s[..max - 1] + "\U{2026}"
  }

  function NormalizeState(q: string): Phase {
    if q in {"downloading", "metaDL", "forcedDL", "stalledDL", "allocating"} then Downloading
    else if q in {"uploading", "stalledUP", "forcedUP"} then Seeding
    else if q in {"pausedUP", "pausedDL", "stoppedUP", "stoppedDL"} then Paused
    else if q in {"queuedUP", "queuedDL"} then Queued
    else if q in {"checkingUP", "checkingDL", "checkingResumeData"} then Checking
    else if q == "moving" then Moving
    else if q in {"error", "missingFiles"} then Errored
    else Other
  }

  function CapEta(eta: int): int {
    if eta >= ETA_UNKNOWN then ETA_UNKNOWN else eta
  }

  /** What the daemon shows for one complete backend object. */
  function Normal(h: Hash, raw: RawTorrent): Torrent {
    Torrent(h, raw.name, NormalizeState(raw.state), raw.progress, raw.dlSpeed, raw.upSpeed,
            CapEta(raw.eta), raw.ratio, CapRunes(raw.category, CATEGORY_CAP), raw.size, raw.completed)
  }

  function NormalAll(held: map<Hash, RawTorrent>): map<Hash, Torrent> {
    map h | h in held :: Normal(h, held[h])
  }

  /** The value partialTorrent.apply leaves behind its pointer. */
  function Merge(t: Torrent, p: Partial): Torrent {
    t.(name := p.name.GetOr(t.name),
       state := if p.state.Some? then NormalizeState(p.state.value) else t.state,
       progress := p.progress.GetOr(t.progress),
       dlSpeed := p.dlSpeed.GetOr(t.dlSpeed),
       upSpeed := p.upSpeed.GetOr(t.upSpeed),
       eta := if p.eta.Some? then CapEta(p.eta.value) else t.eta,
       ratio := p.ratio.GetOr(t.ratio),
       category := if p.category.Some? then CapRunes(p.category.value, CATEGORY_CAP) else t.category,
       size := p.size.GetOr(t.size),
       completed := p.completed.GetOr(t.completed))
  }

  function Or<T>(field: Option<T>, was: T): Option<T> {
    if field.Some? then field else Some(was)
  }

  /** What the normalised states stand for in qBittorrent's own words. */
  predicate StateIs(q: string, p: Phase) {
    && p != NoPhase
    && (p == Downloading <==> q in {"downloading", "metaDL", "forcedDL", "stalledDL", "allocating"})
    && (p == Seeding <==> q in {"uploading", "stalledUP", "forcedUP"})
    && (p == Paused <==> q in {"pausedUP", "pausedDL", "stoppedUP", "stoppedDL"})
    && (p == Queued <==> q in {"queuedUP", "queuedDL"})
    && (p == Checking <==> q in {"checkingUP", "checkingDL", "checkingResumeData"})
    && (p == Moving <==> q == "moving")
    && (p == Errored <==> q in {"error", "missingFiles"})
  }

  /** Field by field: what the object carries, normalised, and for the rest what was there. */
  predicate Applied(p: Partial, t: Torrent, r: Torrent) {
    && r.hash == t.hash && Some(r.name) == Or(p.name, t.name) && Some(r.progress) == Or(p.progress, t.progress)
    && Some(r.dlSpeed) == Or(p.dlSpeed, t.dlSpeed) && Some(r.upSpeed) == Or(p.upSpeed, t.upSpeed)
    && Some(r.ratio) == Or(p.ratio, t.ratio) && Some(r.size) == Or(p.size, t.size) && Some(r.completed) == Or(p.completed, t.completed)
    && (if p.state.Some? then StateIs(p.state.value, r.state) else r.state == t.state)
    && (if p.eta.Some? then EtaIs(p.eta.value, r.eta) else r.eta == t.eta)
    && (if p.category.Some? then CategoryIs(p.category.value, r.category) else r.category == t.category)
  }

  /** 8640000 is qBittorrent's "unknown"; nothing above it is shown. */
  predicate EtaIs(eta: int, shown: int) {
    shown <= 8640000 && (eta <= 8640000 ==> shown == eta) && (eta > 8640000 ==> shown == 8640000)
  }

  predicate CategoryIs(category: string, shown: string) {
    |shown| <= 128 && (|category| <= 128 ==> shown == category) && (|category| > 128 ==> |shown| == 128 && shown[..127] == category[..127])
  }

  lemma MergeApplies(p: Partial, t: Torrent)
    ensures Applied(p, t, Merge(t, p))
  {
    if p.state.Some? {
      NormalizedStateIs(p.state.value);
    }
  }

  lemma NormalizedStateIs(q: string)
    ensures StateIs(q, NormalizeState(q))
  {
  }

  /** partialTorrent.apply, field by field. */
  method ApplyPartial(p: Partial, t: Torrent) returns (r: Torrent)
    ensures r == Merge(t, p)
    ensures Applied(p, t, r)
  {
    MergeApplies(p, t);
    var name, state, progress, dlSpeed, upSpeed := t.name, t.state, t.progress, t.dlSpeed, t.upSpeed;
    var eta, ratio, category, size, completed := t.eta, t.ratio, t.category, t.size, t.completed;
    if p.name.Some? { name := p.name.value; }
    assert name == p.name.GetOr(t.name);
    if p.state.Some? { state := NormalizeState(p.state.value); }
    if p.progress.Some? { progress := p.progress.value; }
    if p.dlSpeed.Some? { dlSpeed := p.dlSpeed.value; }
    if p.upSpeed.Some? { upSpeed := p.upSpeed.value; }
    assert progress == p.progress.GetOr(t.progress) && dlSpeed == p.dlSpeed.GetOr(t.dlSpeed) && upSpeed == p.upSpeed.GetOr(t.upSpeed);
    if p.eta.Some? {
      if p.eta.value >= ETA_UNKNOWN {
        eta := ETA_UNKNOWN;
      } else {
        eta := p.eta.value;
      }
    }
    if p.ratio.Some? { ratio := p.ratio.value; }
    if p.category.Some? { category := CapRunes(p.category.value, CATEGORY_CAP); }
    if p.size.Some? { size := p.size.value; }
    if p.completed.Some? { completed := p.completed.value; }
    assert ratio == p.ratio.GetOr(t.ratio) && size == p.size.GetOr(t.size) && completed == p.completed.GetOr(t.completed);
    r := Torrent(t.hash, name, state, progress, dlSpeed, upSpeed, eta, ratio, category, size, completed);
  }

  /** The wire object of a full update. */
  function Whole(raw: RawTorrent): Partial {
    Partial(Some(raw.name), Some(raw.state), Some(raw.progress), Some(raw.dlSpeed), Some(raw.upSpeed),
            Some(raw.eta), Some(raw.ratio), Some(raw.category), Some(raw.size), Some(raw.completed))
  }

  predicate FieldExplains<T(==)>(was: T, now: T, field: Option<T>) {
    if field.Some? then field.value == now else was == now
  }

  /** A delta object: every changed field is present, every present field is current. */
  predicate Explains(was: RawTorrent, now: RawTorrent, p: Partial) {
    && FieldExplains(was.name, now.name, p.name)
    && FieldExplains(was.state, now.state, p.state)
    && FieldExplains(was.progress, now.progress, p.progress)
    && FieldExplains(was.dlSpeed, now.dlSpeed, p.dlSpeed)
    && FieldExplains(was.upSpeed, now.upSpeed, p.upSpeed)
    && FieldExplains(was.eta, now.eta, p.eta)
    && FieldExplains(was.ratio, now.ratio, p.ratio)
    && FieldExplains(was.category, now.category, p.category)
    && FieldExplains(was.size, now.size, p.size)
    && FieldExplains(was.completed, now.completed, p.completed)
  }

  /** Normalisation commutes with the field merge, for a new object and for an update. */
  lemma MergeWhole(h: Hash, raw: RawTorrent)
    ensures Merge(ZERO, Whole(raw)).(hash := h) == Normal(h, raw)
  {
  }

  lemma MergeExplains(h: Hash, was: RawTorrent, now: RawTorrent, p: Partial)
    requires Explains(was, now, p)
    ensures Merge(Normal(h, was), p).(hash := h) == Normal(h, now)
  {
  }
}
