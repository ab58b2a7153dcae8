/** The build configuration that decides DEBUG_MODE, and with it whether the
    application asks for validation layers and creates a debug messenger. */
module BuildConfig {

  /** Which of the macros DEBUG, _DEBUG and NDEBUG the build defines. */
  datatype Defines = Defines(debug: bool, underscoreDebug: bool, ndebug: bool)

  /** A release build: NDEBUG defined, neither debug macro. */
  const ReleaseBuild := Defines(false, false, true)

  /** A build that defines none of the three macros. */
  const PlainBuild := Defines(false, false, false)

  /** DEBUG_MODE as the header computes it: on when any of the three macros
      is defined, NDEBUG included. */
  predicate DebugModeAsWritten(d: Defines) {
    d.debug || d.underscoreDebug || d.ndebug
  }

  /** As written, a release build turns DEBUG_MODE on, and a build with no
      macro at all turns it off. */
  lemma ReleaseBuildTurnsDebugModeOn()
    ensures DebugModeAsWritten(ReleaseBuild)
    ensures !DebugModeAsWritten(PlainBuild)
  {
  }

  /** DEBUG_MODE as evidently intended: NDEBUG switches it off. */
  predicate DebugMode(d: Defines) {
    d.debug || d.underscoreDebug || !d.ndebug
  }

  /** With NDEBUG read as "not a debug build", DEBUG_MODE is off exactly in a
      release build, and either debug macro turns it on. */
  lemma DebugModeOffExactlyInRelease(d: Defines)
    ensures !DebugMode(d) <==> d == ReleaseBuild
    ensures d.debug || d.underscoreDebug ==> DebugMode(d)
    ensures DebugMode(PlainBuild) && !DebugMode(ReleaseBuild)
  {
  }
}
