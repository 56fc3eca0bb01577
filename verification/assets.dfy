/**
 * The static asset manifest: a fixed table from asset names to model URLs,
 * and the lookup that yields no URL (JavaScript `null`) for an unknown name.
 */
module Assets {
  import opened Wrappers

  const BaseUrl: string := "https://raw.githubusercontent.com/nicolasbulgarides/testmodels/main/"

  /** The manifest table; note that "cube" points at cube2.glb. */
  const Table: map<string, string> := map[
    "cube" := BaseUrl + "cube2.glb",
    "spaceSky2" := BaseUrl + "spaceSky2.glb",
    "spaceSky3" := BaseUrl + "spaceSky3.glb",
    "redCastle" := BaseUrl + "redCastle.glb",
    "levelLarge" := BaseUrl + "levelLarge.glb",
    "spaceSky" := BaseUrl + "spaceSky.glb",
    "running" := BaseUrl + "running.glb",
    "statue" := BaseUrl + "statue.glb"
  ]

  /** Every URL of the table lies under BaseUrl and names a .glb file. */
  ghost predicate IsModelUrl(url: string) {
    |url| > |BaseUrl| + 4 && url[..|BaseUrl|] == BaseUrl && url[|url| - 4..] == ".glb"
  }

  /**
   * `this.assets[assetName] || null`: the table entry, unless it is missing
   * or is the (falsy) empty string.
   */
  function GetAssetUrl(assetName: string): (r: Option<string>)
    ensures r.Some? <==> assetName in Table
    ensures r.Some? ==> r.value == Table[assetName] && IsModelUrl(r.value)
  {
    TableUrlsAreModelUrls();
    if assetName in Table && Table[assetName] != "" then Some(Table[assetName]) else None
  }

  lemma ModelUrlOf(file: string)
    requires |file| > 4 && file[|file| - 4..] == ".glb"
    ensures IsModelUrl(BaseUrl + file)
  {
    var u := BaseUrl + file;
    assert u[..|BaseUrl|] == BaseUrl;
    assert u[|u| - 4..] == file[|file| - 4..];
  }

  lemma TableUrlsAreModelUrls()
    ensures forall name :: name in Table ==> IsModelUrl(Table[name])
  {
    ModelUrlOf("cube2.glb");
    ModelUrlOf("spaceSky2.glb");
    ModelUrlOf("spaceSky3.glb");
    ModelUrlOf("redCastle.glb");
    ModelUrlOf("levelLarge.glb");
    ModelUrlOf("spaceSky.glb");
    ModelUrlOf("running.glb");
    ModelUrlOf("statue.glb");
  }

  /** The URL the manifest gives for each of its eight names. */
  lemma KnownAssetUrls()
    ensures GetAssetUrl("cube") == Some(BaseUrl + "cube2.glb")
    ensures GetAssetUrl("spaceSky2") == Some(BaseUrl + "spaceSky2.glb")
    ensures GetAssetUrl("spaceSky3") == Some(BaseUrl + "spaceSky3.glb")
    ensures GetAssetUrl("redCastle") == Some(BaseUrl + "redCastle.glb")
    ensures GetAssetUrl("levelLarge") == Some(BaseUrl + "levelLarge.glb")
    ensures GetAssetUrl("spaceSky") == Some(BaseUrl + "spaceSky.glb")
    ensures GetAssetUrl("running") == Some(BaseUrl + "running.glb")
    ensures GetAssetUrl("statue") == Some(BaseUrl + "statue.glb")
  {
  }
}
