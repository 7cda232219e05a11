/** The test bundle list of the Android vendor configuration. */
module AndroidConfig {
  import opened Wrappers

  /** A file, by its path. */
  type File = string

  /** An application under test, when there is one, and its instrumentation APK. */
  datatype AndroidTestBundle = AndroidTestBundle(application: Option<File>, testApplication: File)

  /** The fields of the configuration that `testBundlesCompat` reads; the rest is not part of this model. */
  datatype AndroidConfiguration = AndroidConfiguration(
    applicationOutput: Option<File>,
    testApplicationOutput: Option<File>,
    outputs: Option<seq<AndroidTestBundle>>)
  {
    /**
     * `testBundlesCompat`: the configured bundles (none when `outputs` is null), followed by one bundle
     * for the single-APK settings when a test application output is set.
     */
    function TestBundlesCompat(): (r: seq<AndroidTestBundle>)
      ensures |r| == |outputs.GetOr([])| + (if testApplicationOutput.Some? then 1 else 0)
      ensures r[..|outputs.GetOr([])|] == outputs.GetOr([])
      ensures testApplicationOutput.Some? ==> r[|r| - 1] == AndroidTestBundle(applicationOutput, testApplicationOutput.value)
      ensures testApplicationOutput.None? ==> r == outputs.GetOr([])
    {
      var listed := match outputs case Some(bundles) => bundles case None => [];
      match testApplicationOutput
      case Some(test) => listed + [AndroidTestBundle(applicationOutput, test)]
      case None => listed
    }
  }

  /** With neither `outputs` nor a test application output the configuration has no bundles. */
  lemma NothingConfigured(applicationOutput: Option<File>)
    ensures AndroidConfiguration(applicationOutput, None, None).TestBundlesCompat() == []
  {
  }

  /** Every configured bundle is kept, and the only other bundle is the compat one. */
  lemma BundlesComeFromConfiguration(c: AndroidConfiguration, b: AndroidTestBundle)
    requires b in c.TestBundlesCompat()
    ensures b in c.outputs.GetOr([]) ||
      (c.testApplicationOutput.Some? && b == AndroidTestBundle(c.applicationOutput, c.testApplicationOutput.value))
  {
    var r := c.TestBundlesCompat();
    var n := |c.outputs.GetOr([])|;
    var i :| 0 <= i < |r| && r[i] == b;
    if i < n {
      assert r[..n][i] == b;
    }
  }
}
