/**
 * The background manager (background_video.py): the name of the background
 * file, the segment cut from the local clip and its 9:16 crop, the fallback
 * from the local clip to an animated and then a flat background, and the
 * choice of old backgrounds to delete.
 */
module Backgrounds {
  import opened Outcomes
  import opened PyStrings
  import opened Settings

  // ---------------------------------------------------------------- the file name

  /** Where processed backgrounds are kept. */
  const BackgroundDir: string := "assets/backgrounds"
  const BackgroundPrefix: string := "processed_background_"
  const Mp4: string := ".mp4"

  /** `strftime("%Y%m%d_%H%M%S_%f")[:-3]`: the microsecond stamp cut to milliseconds. */
  function MillisStamp(stamp: string): (r: string)
    ensures |stamp| >= 3 ==> r + stamp[|stamp| - 3..] == stamp
    ensures |stamp| < 3 ==> r == []
  {
    SliceTo(stamp, -3)
  }

  /** The file name `get_random_background` gives: the video id goes in only when it is truthy. */
  function BackgroundFileName(videoId: string, stamp: string): string {
    var ts := MillisStamp(stamp);
    if videoId != [] then BackgroundPrefix + videoId + "_" + ts + Mp4 else BackgroundPrefix + ts + Mp4
  }

  function BackgroundPath(videoId: string, stamp: string): string {
    PathJoin(BackgroundDir, BackgroundFileName(videoId, stamp))
  }

  /** The glob `processed_background_*.mp4` of `cleanup_old_videos`, for a name in the background directory. */
  predicate MatchesBackgroundGlob(name: string) {
    |name| >= |BackgroundPrefix| + |Mp4| && StartsWith(name, BackgroundPrefix) && EndsWith(name, Mp4)
  }

  /**
   * The background lies directly in the background directory; its name
   * carries the prefix, the video id when it is truthy, and the stamp cut
   * to milliseconds; and the cleanup glob matches it, so every background
   * this manager writes is one the cleanup can delete.
   */
  lemma {:induction false} BackgroundNameShape(videoId: string, stamp: string)
    ensures var name := BackgroundFileName(videoId, stamp);
            BackgroundPath(videoId, stamp) == BackgroundDir + "/" + name && MatchesBackgroundGlob(name)
    ensures videoId != [] ==>
              BackgroundFileName(videoId, stamp)[|BackgroundPrefix|..] == videoId + "_" + MillisStamp(stamp) + Mp4
    ensures videoId == [] ==> BackgroundFileName(videoId, stamp)[|BackgroundPrefix|..] == MillisStamp(stamp) + Mp4
  {
    var name := BackgroundFileName(videoId, stamp);
    assert name[..|BackgroundPrefix|] == BackgroundPrefix;
    assert name[|name| - |Mp4|..] == Mp4;
    assert !StartsWith(name, "/") by {
      assert name[0] == 'p';
    }
  }

  // ---------------------------------------------------------------- the segment

  /** `min(target_duration or MAX_DURATION, total_duration)`: how long the segment is. */
  function SegmentLength(target: Option<real>, total: real): (r: real)
    ensures r <= total && r <= target.GetOr(MaxDuration as real)
    ensures r == total || r == target.GetOr(MaxDuration as real)
  {
    var t := target.GetOr(MaxDuration as real);
    if t <= total then t else total
  }

  /** `max(0, total_duration - target_duration)`: the latest start that leaves room for the whole segment. */
  function LatestStart(total: real, length: real): (r: real)
    ensures r >= 0.0 && r >= total - length
    ensures r == 0.0 || r == total - length
  {
    if total - length > 0.0 then total - length else 0.0
  }

  /**
   * The start of the segment: `random.uniform(0, latest)`, that is
   * `latest * draw` for the generator's value `draw` in [0, 1), when the
   * latest start is positive, and 0 otherwise.  Where the generator was
   * seeded is not modelled.
   */
  function StartTime(latest: real, draw: real): real {
    if latest > 0.0 then latest * draw else 0.0
  }

  /** The start lies in [0, latest], and it is 0 when the latest start is 0. */
  lemma {:induction false} StartInRange(latest: real, draw: real)
    requires latest >= 0.0 && 0.0 <= draw < 1.0
    ensures 0.0 <= StartTime(latest, draw) <= latest
    ensures latest == 0.0 ==> StartTime(latest, draw) == 0.0
  {
    if latest > 0.0 {
      assert latest * draw <= latest * 1.0;
    }
  }

  /**
   * The segment `[start, start + length)` is as long as asked for, or as
   * the clip when that is shorter, and lies inside the clip.
   */
  lemma {:induction false} SegmentInsideClip(target: Option<real>, total: real, draw: real)
    requires 0.0 <= draw < 1.0
    ensures var length := SegmentLength(target, total);
            var start := StartTime(LatestStart(total, length), draw);
            0.0 <= start && start + length <= total
  {
    var length := SegmentLength(target, total);
    StartInRange(LatestStart(total, length), draw);
  }

  // ---------------------------------------------------------------- the crop

  /** A crop rectangle: columns `x1..x2`, rows `y1..y2`. */
  datatype Rect = Rect(x1: int, y1: int, x2: int, y2: int)

  /** `w / h > target_w / target_h`, compared exactly. */
  predicate Wider(w: nat, h: nat) {
    w * VideoHeight > VideoWidth * h
  }

  /** `w / h < target_w / target_h`, compared exactly. */
  predicate Taller(w: nat, h: nat) {
    w * VideoHeight < VideoWidth * h
  }

  /**
   * The crop of `process_video_for_shorts` for a `w` by `h` frame: a wider
   * frame keeps the centred full-height band of width `h * 1080 // 1920`, a
   * taller one the centred full-width band of height `w * 1920 // 1080`, and
   * a frame of the right shape is kept whole.
   */
  function CropRect(w: nat, h: nat): Rect {
    if Wider(w, h) then
      var newW := h * VideoWidth / VideoHeight;
      var x1 := (w - newW) / 2;
      Rect(x1, 0, x1 + newW, h)
    else if Taller(w, h) then
      var newH := w * VideoHeight / VideoWidth;
      var y1 := (h - newH) / 2;
      Rect(0, y1, w, y1 + newH)
    else Rect(0, 0, w, h)
  }

  /** The crop lies inside the frame. */
  lemma {:induction false} CropInsideFrame(w: nat, h: nat)
    ensures var r := CropRect(w, h);
            0 <= r.x1 <= r.x2 <= w && 0 <= r.y1 <= r.y2 <= h
  {
    if Wider(w, h) {
      var newW := h * VideoWidth / VideoHeight;
      assert newW * VideoHeight <= h * VideoWidth;
      assert newW < w;
    } else if Taller(w, h) {
      var newH := w * VideoHeight / VideoWidth;
      assert newH * VideoWidth <= w * VideoHeight;
      assert newH < h;
    }
  }

  /**
   * A wider frame is cut to the widest centred full-height band whose shape
   * is no wider than 9:16; a taller frame to the tallest centred full-width
   * band no taller than 9:16; a frame of exactly that shape is not cut.
   */
  lemma {:induction false} CropShape(w: nat, h: nat)
    ensures var r := CropRect(w, h);
            Wider(w, h) ==>
              r.y1 == 0 && r.y2 == h && r.x1 == (w - (r.x2 - r.x1)) / 2
              && (r.x2 - r.x1) * VideoHeight <= h * VideoWidth < (r.x2 - r.x1 + 1) * VideoHeight
    ensures var r := CropRect(w, h);
            Taller(w, h) ==>
              r.x1 == 0 && r.x2 == w && r.y1 == (h - (r.y2 - r.y1)) / 2
              && (r.y2 - r.y1) * VideoWidth <= w * VideoHeight < (r.y2 - r.y1 + 1) * VideoWidth
    ensures !Wider(w, h) && !Taller(w, h) ==> CropRect(w, h) == Rect(0, 0, w, h)
  {
  }

  // ---------------------------------------------------------------- the fallback chain

  /** What loading the local clip tells: its length and frame size. */
  datatype Probe = Probe(total: real, width: nat, height: nat)

  /**
   * What the external rendering does, given as inputs: the probe of the
   * local clip (absent when loading it raises), whether each of the three
   * writers succeeds, and the random draw for the start.
   */
  datatype Rendering = Rendering(probe: Option<Probe>, processWrites: bool, animatedWrites: bool,
                                 flatWrites: bool, draw: real)

  /** What ends up written at the output path. */
  datatype Written =
    | Processed(start: real, end: real, crop: Rect)
    | Animated(duration: nat)
    | Flat(duration: nat)
    | NothingWritten

  /**
   * `create_animated_background`, falling back to
   * `create_simple_background`: both last `MAX_DURATION`; when both writers
   * fail nothing is written.
   */
  function AnimatedOrFlat(env: Rendering): Written {
    if env.animatedWrites then Animated(MaxDuration)
    else if env.flatWrites then Flat(MaxDuration)
    else NothingWritten
  }

  /**
   * `process_video_for_shorts`: a failed load, a frame of height 0 (the ratio
   * divides by it) or a failed write falls back to the animated background.
   */
  function ProcessForShorts(target: Option<real>, env: Rendering): Written {
    if env.probe.None? || env.probe.value.height == 0 || !env.processWrites then AnimatedOrFlat(env)
    else
      var p := env.probe.value;
      var length := SegmentLength(target, p.total);
      var start := StartTime(LatestStart(p.total, length), env.draw);
      Processed(start, start + length, CropRect(p.width, p.height))
  }

  /** `self.local_background`: the first configured clip, if any. */
  function LocalBackground(): Option<string> {
    if BackgroundVideos != [] then Some(BackgroundVideos[0]) else None
  }

  /**
   * `get_random_background`: the local clip is processed when it is
   * configured and `localExists` (the file is there); otherwise the
   * animated background is made.  The output path is returned whatever was
   * written.
   */
  function GetRandomBackground(target: Option<real>, videoId: string, stamp: string, localExists: bool,
                               env: Rendering): (string, Written)
  {
    var path := BackgroundPath(videoId, stamp);
    var local := LocalBackground();
    if local.Some? && local.value != [] && localExists then (path, ProcessForShorts(target, env))
    else (path, AnimatedOrFlat(env))
  }

  /**
   * The path is returned in every branch, even when nothing was written.
   * A processed segment comes only from a configured local clip that exists,
   * loads with a nonzero height and is written; it lies inside the clip, is
   * as long as the target (default `MAX_DURATION`) or the clip, and its crop
   * lies inside the frame.  The animated background comes next and the flat
   * one last, and both last `MAX_DURATION`, whatever the target.
   */
  lemma {:induction false} BackgroundOutcome(target: Option<real>, videoId: string, stamp: string, localExists: bool, env: Rendering)
    requires 0.0 <= env.draw < 1.0
    ensures GetRandomBackground(target, videoId, stamp, localExists, env).0 == BackgroundPath(videoId, stamp)
    ensures var w := GetRandomBackground(target, videoId, stamp, localExists, env).1;
            w.Processed? ==>
              localExists && env.probe.Some? && env.probe.value.height > 0 && env.processWrites
              && var p := env.probe.value;
                 0.0 <= w.start && w.end <= p.total && w.end - w.start == SegmentLength(target, p.total)
                 && 0 <= w.crop.x1 <= w.crop.x2 <= p.width && 0 <= w.crop.y1 <= w.crop.y2 <= p.height
    ensures var w := GetRandomBackground(target, videoId, stamp, localExists, env).1;
            w.Animated? ==> env.animatedWrites && w.duration == MaxDuration
    ensures var w := GetRandomBackground(target, videoId, stamp, localExists, env).1;
            w.Flat? ==> !env.animatedWrites && env.flatWrites && w.duration == MaxDuration
    ensures var w := GetRandomBackground(target, videoId, stamp, localExists, env).1;
            w == NothingWritten <==> !env.animatedWrites && !env.flatWrites && !w.Processed?
  {
    if env.probe.Some? {
      var p := env.probe.value;
      SegmentInsideClip(target, p.total, env.draw);
      CropInsideFrame(p.width, p.height);
    }
  }

  /** The configured clip is a placeholder path, so it is processed exactly when a file exists there. */
  lemma {:induction false} LocalClipIsConfigured()
    ensures LocalBackground() == Some(BackgroundVideos[0]) && BackgroundVideos[0] != []
  {
  }

  /** The local clip is processed exactly when it exists; otherwise the animated-then-flat fallback runs. */
  lemma {:induction false} LocalClipFirst(target: Option<real>, videoId: string, stamp: string, localExists: bool, env: Rendering)
    ensures GetRandomBackground(target, videoId, stamp, localExists, env).1
            == if localExists then ProcessForShorts(target, env) else AnimatedOrFlat(env)
  {
    LocalClipIsConfigured();
  }

  // ---------------------------------------------------------------- cleanup_old_videos

  /** A file in the background directory and its modification time; after the glob, `name` is its path. */
  datatype BackgroundFile = BackgroundFile(name: string, mtime: real)

  /** The glob of `cleanup_old_videos` over the directory listing: matching files, as paths, in listing order. */
  function Globbed(listing: seq<BackgroundFile>): (r: seq<BackgroundFile>)
    ensures |r| <= |listing|
  {
    if listing == [] then []
    else
      var rest := Globbed(listing[1..]);
      var f := listing[0];
      if MatchesBackgroundGlob(f.name) then [BackgroundFile(PathJoin(BackgroundDir, f.name), f.mtime)] + rest
      else rest
  }

  /** The glob keeps exactly the listed files whose name matches, each turned into its path in the background directory. */
  lemma {:induction false} GlobbedMembers(listing: seq<BackgroundFile>)
    ensures forall f :: f in Globbed(listing) <==>
              exists i :: 0 <= i < |listing| && MatchesBackgroundGlob(listing[i].name)
                          && f == BackgroundFile(PathJoin(BackgroundDir, listing[i].name), listing[i].mtime)
  {
    if listing != [] {
      GlobbedMembers(listing[1..]);
      forall f
        ensures f in Globbed(listing) <==>
                exists i :: 0 <= i < |listing| && MatchesBackgroundGlob(listing[i].name)
                            && f == BackgroundFile(PathJoin(BackgroundDir, listing[i].name), listing[i].mtime)
      {
        if exists i :: 0 <= i < |listing| && MatchesBackgroundGlob(listing[i].name)
                       && f == BackgroundFile(PathJoin(BackgroundDir, listing[i].name), listing[i].mtime) {
          var i :| 0 <= i < |listing| && MatchesBackgroundGlob(listing[i].name)
                   && f == BackgroundFile(PathJoin(BackgroundDir, listing[i].name), listing[i].mtime);
          if i > 0 {
            assert listing[1..][i - 1] == listing[i];
          }
        }
        if f in Globbed(listing[1..]) {
          var i :| 0 <= i < |listing[1..]| && MatchesBackgroundGlob(listing[1..][i].name)
                   && f == BackgroundFile(PathJoin(BackgroundDir, listing[1..][i].name), listing[1..][i].mtime);
          assert listing[i + 1] == listing[1..][i];
        }
      }
    }
  }

  predicate OldestFirst(files: seq<BackgroundFile>) {
    forall i, j :: 0 <= i < j < |files| ==> files[i].mtime <= files[j].mtime
  }

  /** Insert `f` after every file no newer than it, as a stable sort does. */
  function InsertByMtime(f: BackgroundFile, files: seq<BackgroundFile>): (r: seq<BackgroundFile>)
    ensures multiset(r) == multiset(files) + multiset{f}
    ensures |r| == |files| + 1
  {
    if files == [] then [f]
    else if f.mtime < files[0].mtime then [f] + files
    else
      assert files == [files[0]] + files[1..];
      [files[0]] + InsertByMtime(f, files[1..])
  }

  /** `sort(key=os.path.getmtime)`, as an insertion sort. */
  function SortByMtime(files: seq<BackgroundFile>): (r: seq<BackgroundFile>)
    ensures multiset(r) == multiset(files) && |r| == |files|
  {
    if files == [] then []
    else
      assert files == files[..|files| - 1] + [files[|files| - 1]];
      InsertByMtime(files[|files| - 1], SortByMtime(files[..|files| - 1]))
  }

  /** No file is older than `m`. */
  predicate NoneOlderThan(files: seq<BackgroundFile>, m: real) {
    forall i :: 0 <= i < |files| ==> m <= files[i].mtime
  }

  lemma {:induction false} InsertNoneOlder(f: BackgroundFile, files: seq<BackgroundFile>, m: real)
    requires NoneOlderThan(files, m) && m <= f.mtime
    ensures NoneOlderThan(InsertByMtime(f, files), m)
  {
    if files != [] && f.mtime >= files[0].mtime {
      InsertNoneOlder(f, files[1..], m);
    }
  }

  lemma {:induction false} ConsOldestFirst(a: BackgroundFile, files: seq<BackgroundFile>)
    requires OldestFirst(files) && NoneOlderThan(files, a.mtime)
    ensures OldestFirst([a] + files)
  {
    var r := [a] + files;
    forall i, j | 0 <= i < j < |r|
      ensures r[i].mtime <= r[j].mtime
    {
      assert r[j] == files[j - 1];
      if i > 0 {
        assert r[i] == files[i - 1];
      }
    }
  }

  lemma {:induction false} InsertKeepsOrder(f: BackgroundFile, files: seq<BackgroundFile>)
    requires OldestFirst(files)
    ensures OldestFirst(InsertByMtime(f, files))
  {
    if files == [] {
    } else if f.mtime < files[0].mtime {
      ConsOldestFirst(f, files);
    } else {
      InsertKeepsOrder(f, files[1..]);
      InsertNoneOlder(f, files[1..], files[0].mtime);
      ConsOldestFirst(files[0], InsertByMtime(f, files[1..]));
    }
  }

  /** The sort puts the oldest file first. */
  lemma {:induction false} SortIsOldestFirst(files: seq<BackgroundFile>)
    ensures OldestFirst(SortByMtime(files))
  {
    if files != [] {
      SortIsOldestFirst(files[..|files| - 1]);
      InsertKeepsOrder(files[|files| - 1], SortByMtime(files[..|files| - 1]));
    }
  }

  /**
   * The files `cleanup_old_videos` removes: none while there are at most
   * `maxFiles`, otherwise `sorted[:-max_files]` of the files sorted oldest
   * first.
   */
  function FilesToRemove(files: seq<BackgroundFile>, maxFiles: int): seq<BackgroundFile> {
    if |files| > maxFiles then SliceTo(SortByMtime(files), -maxFiles) else []
  }

  /**
   * At most `maxFiles` files are left alone.  With more and a positive
   * limit, exactly the surplus is removed and it is the oldest: each
   * removed file is no newer than each kept one, and removed and kept
   * together are the files found.  A limit of 0 removes nothing, because
   * `[:-0]` is empty.
   */
  lemma {:induction false} CleanupChoosesOldest(files: seq<BackgroundFile>, maxFiles: int)
    ensures |files| <= maxFiles ==> FilesToRemove(files, maxFiles) == []
    ensures maxFiles == 0 ==> FilesToRemove(files, maxFiles) == []
    ensures 0 < maxFiles < |files| ==>
              var sorted := SortByMtime(files);
              var removed := FilesToRemove(files, maxFiles);
              var kept := sorted[|files| - maxFiles..];
              |removed| == |files| - maxFiles && |kept| == maxFiles
              && multiset(removed) + multiset(kept) == multiset(files)
              && forall i, j :: 0 <= i < |removed| && 0 <= j < |kept| ==> removed[i].mtime <= kept[j].mtime
  {
    if 0 < maxFiles < |files| {
      var sorted := SortByMtime(files);
      SortIsOldestFirst(files);
      var cut := |files| - maxFiles;
      var removed := FilesToRemove(files, maxFiles);
      assert removed == sorted[..cut];
      assert sorted == sorted[..cut] + sorted[cut..];
      forall i, j | 0 <= i < |removed| && 0 <= j < maxFiles
        ensures removed[i].mtime <= sorted[cut..][j].mtime
      {
        assert removed[i] == sorted[i] && sorted[cut..][j] == sorted[cut + j];
      }
    }
  }

  /** The paths whose removal succeeds, in order: a failed `os.remove` is reported and the loop goes on. */
  function RemovedPaths(files: seq<BackgroundFile>, failing: set<string>): (r: seq<string>)
    ensures |r| <= |files|
    ensures forall p :: p in r <==> p !in failing && exists i :: 0 <= i < |files| && files[i].name == p
  {
    if files == [] then []
    else
      var rest := RemovedPaths(files[1..], failing);
      assert forall i :: 0 < i < |files| ==> files[i] == files[1..][i - 1];
      if files[0].name in failing then rest else [files[0].name] + rest
  }

  /**
   * `cleanup_old_videos` over the directory listing, with `failing` the
   * paths whose removal raises: the paths it removes.
   */
  method CleanupOldVideos(listing: seq<BackgroundFile>, maxFiles: int, failing: set<string>) returns (removed: seq<string>)
    ensures removed == RemovedPaths(FilesToRemove(Globbed(listing), maxFiles), failing)
  {
    removed := [];
    var files := Globbed(listing);
    if |files| > maxFiles {
      var sorted := SortByMtime(files);
      var toRemove := SliceTo(sorted, -maxFiles);
      for i := 0 to |toRemove|
        invariant removed == RemovedPaths(toRemove[..i], failing)
      {
        assert toRemove[..i + 1] == toRemove[..i] + [toRemove[i]];
        RemovedPathsAppend(toRemove[..i], toRemove[i], failing);
        if toRemove[i].name !in failing {
          removed := removed + [toRemove[i].name];
        }
      }
      assert toRemove[..|toRemove|] == toRemove;
    }
  }

  lemma {:induction false} RemovedPathsAppend(files: seq<BackgroundFile>, f: BackgroundFile, failing: set<string>)
    ensures RemovedPaths(files + [f], failing)
            == RemovedPaths(files, failing) + (if f.name in failing then [] else [f.name])
  {
    if files != [] {
      assert (files + [f])[1..] == files[1..] + [f];
      RemovedPathsAppend(files[1..], f, failing);
    }
  }
}
