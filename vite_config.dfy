/**
 * The production build's chunk splitting: `manualChunks(id)` sends every
 * module under `node_modules` to one of three vendor chunks and leaves the
 * application's own modules to the bundler's default (`undefined`).
 */
module ViteConfig {
  import opened Wrappers

  const VendorReact: string := "vendor-react"
  const VendorMotion: string := "vendor-motion"
  const Vendor: string := "vendor"

  predicate StartsWith(s: string, prefix: string) {
    |prefix| <= |s| && s[..|prefix|] == prefix
  }

  /** JavaScript's `s.includes(t)`, computed by scanning the start positions of `s`. */
  function Includes(s: string, t: string): bool
    decreases |s|
  {
    StartsWith(s, t) || (s != [] && Includes(s[1..], t))
  }

  /** `t` stands in `s` at position `i`. */
  ghost predicate OccursAt(s: string, t: string, i: int) {
    0 <= i && i + |t| <= |s| && s[i..i + |t|] == t
  }

  /** The reference meaning of substring containment: some position holds `t`. */
  ghost predicate Occurs(s: string, t: string) {
    exists i :: OccursAt(s, t, i)
  }

  /** The scan finds `t` exactly when `t` occurs somewhere in `s`. */
  lemma {:induction false} IncludesIff(s: string, t: string)
    ensures Includes(s, t) <==> Occurs(s, t)
    decreases |s|
  {
    if StartsWith(s, t) {
      assert OccursAt(s, t, 0);
    } else if s != [] {
      IncludesIff(s[1..], t);
      if Occurs(s, t) {
        var i :| OccursAt(s, t, i);
        if i > 0 {
          assert s[1..][i - 1..i - 1 + |t|] == s[i..i + |t|];
          assert OccursAt(s[1..], t, i - 1);
        }
      }
      if Occurs(s[1..], t) {
        var j :| OccursAt(s[1..], t, j);
        assert s[1..][j..j + |t|] == s[j + 1..j + 1 + |t|];
        assert OccursAt(s, t, j + 1);
      }
    }
  }

  /** A needle holding a character the haystack lacks is not included. */
  lemma MissingCharNotIncluded(s: string, t: string, c: char)
    requires c in t && c !in s
    ensures !Includes(s, t)
  {
    IncludesIff(s, t);
  }

  /** `manualChunks(id)`: the chunk a module is placed in, or `None` for the default. */
  function ManualChunks(id: string): (chunk: Option<string>)
    ensures chunk.Some? ==> chunk.value in {VendorReact, VendorMotion, Vendor}
  {
    if Includes(id, "node_modules") then
      if Includes(id, "react") then Some(VendorReact)
      else if Includes(id, "framer-motion") then Some(VendorMotion)
      else Some(Vendor)
    else None
  }

  /** A module outside `node_modules` is assigned no chunk, and only such a module. */
  lemma NoChunkOutsideNodeModules(id: string)
    ensures ManualChunks(id).None? <==> !Occurs(id, "node_modules")
  {
    IncludesIff(id, "node_modules");
  }

  /** Any dependency whose path mentions `react` goes to the React chunk. */
  lemma ReactChunk(id: string)
    ensures ManualChunks(id) == Some(VendorReact)
            <==> Occurs(id, "node_modules") && Occurs(id, "react")
  {
    IncludesIff(id, "node_modules");
    IncludesIff(id, "react");
  }

  /** The React test comes first: a path naming both libraries still goes to the React chunk. */
  lemma ReactBeforeMotion(id: string)
    requires Occurs(id, "node_modules") && Occurs(id, "react") && Occurs(id, "framer-motion")
    ensures ManualChunks(id) == Some(VendorReact)
  {
    ReactChunk(id);
  }

  /** A dependency mentioning `framer-motion` but not `react` goes to the motion chunk. */
  lemma MotionChunk(id: string)
    ensures ManualChunks(id) == Some(VendorMotion)
            <==> Occurs(id, "node_modules") && !Occurs(id, "react") && Occurs(id, "framer-motion")
  {
    IncludesIff(id, "node_modules");
    IncludesIff(id, "react");
    IncludesIff(id, "framer-motion");
  }

  /** Every other dependency goes to the shared vendor chunk. */
  lemma VendorChunk(id: string)
    ensures ManualChunks(id) == Some(Vendor)
            <==> Occurs(id, "node_modules") && !Occurs(id, "react") && !Occurs(id, "framer-motion")
  {
    IncludesIff(id, "node_modules");
    IncludesIff(id, "react");
    IncludesIff(id, "framer-motion");
  }

  /** Every dependency gets one of the three vendor chunks. */
  lemma EveryDependencyChunked(id: string)
    requires Occurs(id, "node_modules")
    ensures ManualChunks(id) in {Some(VendorReact), Some(VendorMotion), Some(Vendor)}
  {
    IncludesIff(id, "node_modules");
  }

  /** A needle placed between two strings occurs right after the first. */
  lemma OccursBetween(a: string, t: string, b: string)
    ensures Occurs(a + t + b, t)
  {
    var s := a + t + b;
    assert s[|a|..|a| + |t|] == t;
    assert OccursAt(s, t, |a|);
  }

  /** Any path with `react` somewhere after `node_modules` lands in the React chunk. */
  lemma ReactPackagePath(root: string, middle: string, rest: string)
    ensures ManualChunks(root + "node_modules" + middle + "react" + rest) == Some(VendorReact)
  {
    var id := root + "node_modules" + middle + "react" + rest;
    OccursBetween(root, "node_modules", middle + "react" + rest);
    assert root + "node_modules" + (middle + "react" + rest) == id;
    OccursBetween(root + "node_modules" + middle, "react", rest);
    ReactChunk(id);
  }

  /** The application's own sources are left to the default chunking. */
  lemma ExampleSourcePath()
    ensures ManualChunks("/app/src/main.tsx") == None
  {
    MissingCharNotIncluded("/app/src/main.tsx", "node_modules", '_');
  }
}
