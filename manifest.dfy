/**
 * The fixed list of static assets the service worker stores at install time
 * (sw.js:5-33), with the facts about the literal that the install handler
 * relies on.
 */
module Manifest {
  import opened Strings
  import opened CacheStorage

  /** The manifest of static assets stored at install time, as paths on the worker's origin. */
  const ASSETS_TO_CACHE: seq<string> := [
    "/",
    "/index.html",
    "/style.css",
    "/css/root.css",
    "/css/chassis.css",
    "/css/meters.css",
    "/css/display.css",
    "/css/controls.css",
    "/css/states.css",
    "/css/modals.css",
    "/css/eq.css",
    "/css/mobile.css",
    "/script.js",
    "/manifest.json",
    "/assets/img/mc-logo.png",
    "/assets/img/logo.png",
    "/assets/img/logo_b.png",
    "/assets/img/favicon.png",
    "/assets/img/vumeter-new.png",
    "/assets/info/info3.png",
    "/assets/fontawesome7/css/all.min.css",
    "/assets/fontawesome7/webfonts/fa-solid-900.woff2",
    "/assets/fontawesome7/webfonts/fa-solid-900.ttf"
  ]

  /** The manifest holds 23 distinct paths. */
  lemma ManifestShape()
    ensures |ASSETS_TO_CACHE| == 23
    ensures Distinct(ASSETS_TO_CACHE)
  {
    forall i, j | 0 <= i < j < |ASSETS_TO_CACHE| ensures ASSETS_TO_CACHE[i] != ASSETS_TO_CACHE[j] {
      if i < 6 { DistinctFromLater0To5(i); }
      else if i < 12 { DistinctFromLater6To11(i); }
      else { DistinctFromLater12To22(i); }
    }
  }

  // The solver compares the literals a few rows at a time.
  lemma DistinctFromLater0To5(i: nat)
    requires i < 6
    ensures forall j :: i < j < 23 ==> ASSETS_TO_CACHE[i] != ASSETS_TO_CACHE[j]
  {
  }

  lemma DistinctFromLater6To11(i: nat)
    requires 6 <= i < 12
    ensures forall j :: i < j < 23 ==> ASSETS_TO_CACHE[i] != ASSETS_TO_CACHE[j]
  {
  }

  lemma DistinctFromLater12To22(i: nat)
    requires 12 <= i < 23
    ensures forall j :: i < j < 23 ==> ASSETS_TO_CACHE[i] != ASSETS_TO_CACHE[j]
  {
  }

  /** Every manifest entry is an absolute path on the origin: it begins with "/". */
  lemma ManifestPathsRooted()
    ensures forall i :: 0 <= i < |ASSETS_TO_CACHE| ==> StartsWith(ASSETS_TO_CACHE[i], "/")
  {
    forall i | 0 <= i < |ASSETS_TO_CACHE| ensures StartsWith(ASSETS_TO_CACHE[i], "/") {
      if i < 21 {
        ShortPathsRooted();
        assert ASSETS_TO_CACHE[i][..1] == [ASSETS_TO_CACHE[i][0]];
      } else {
        WebFontPathsRooted(i);
      }
    }
  }

  lemma ShortPathsRooted()
    ensures forall i :: 0 <= i < 21 ==> |ASSETS_TO_CACHE[i]| > 0 && ASSETS_TO_CACHE[i][0] == '/'
  {
  }

  /** The two web-font paths are too long for the solver to index directly; their directory prefix is taken first. */
  lemma WebFontPathsRooted(k: nat)
    requires k == 21 || k == 22
    ensures StartsWith(ASSETS_TO_CACHE[k], "/")
  {
    assert ASSETS_TO_CACHE[k][..21] == "/assets/fontawesome7/";
    assert ASSETS_TO_CACHE[k][..1] == ASSETS_TO_CACHE[k][..21][..1];
  }
}
