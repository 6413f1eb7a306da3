/** The dependency tables of both build scripts: the packages in build
    order, whether each is fetched with git, its build kind and, in
    build_v2_clang.py, the earlier packages it depends on. */
module Deps {
  import opened Cli
  import opened Purge

  /** The packages of build_v2_clang.py; those of build.py are the first
      thirty of them. */
  datatype Pkg =
    | Expat
    | Gettext
    | Bzip2
    | Zlib
    | Xz
    | Zimg
    | Libpng
    | LibJpegTurbo
    | Freetype
    | Libiconv
    | Fribidi
    | Harfbuzz
    | Fontconfig
    | Libass
    | Lcms2
    | Libepoxy
    | SpirvHeaders
    | SpirvCross
    | Glslang
    | SpirvTools
    | Shaderc
    | Ffnvcodec
    | Dav1d
    | Libplacebo
    | Luajit
    | Uchardet
    | Libsoxr
    | Fftw
    | Libsamplerate
    | Rubberband
    | Libdvdcss
    | Libdvdread
    | Libdvdnav
    | Libbluray
    | Libarchive

  /** The package name, as used in marker files, purge patterns and logs. */
  function Name(p: Pkg): string
  {
    match p
    case Expat => "expat"
    case Gettext => "gettext"
    case Bzip2 => "bzip2"
    case Zlib => "zlib"
    case Xz => "xz"
    case Zimg => "zimg"
    case Libpng => "libpng"
    case LibJpegTurbo => "libjpeg-turbo"
    case Freetype => "freetype"
    case Libiconv => "libiconv"
    case Fribidi => "fribidi"
    case Harfbuzz => "harfbuzz"
    case Fontconfig => "fontconfig"
    case Libass => "libass"
    case Lcms2 => "lcms2"
    case Libepoxy => "libepoxy"
    case SpirvHeaders => "spirv-headers"
    case SpirvCross => "spirv-cross"
    case Glslang => "glslang"
    case SpirvTools => "spirv-tools"
    case Shaderc => "shaderc"
    case Ffnvcodec => "ffnvcodec"
    case Dav1d => "dav1d"
    case Libplacebo => "libplacebo"
    case Luajit => "luajit"
    case Uchardet => "uchardet"
    case Libsoxr => "libsoxr"
    case Fftw => "fftw"
    case Libsamplerate => "libsamplerate"
    case Rubberband => "rubberband"
    case Libdvdcss => "libdvdcss"
    case Libdvdread => "libdvdread"
    case Libdvdnav => "libdvdnav"
    case Libbluray => "libbluray"
    case Libarchive => "libarchive"
  }

  /** The marker file `.built_<name>`, directly in the install directory,
      that records a finished build of `name`. */
  function Marker(name: string): Path
  {
    [".built_" + name]
  }

  /** One row of a `deps` table. `git` is whether the row has a clone URL;
      `kind` is the build kind, `None` for header-only packages. */
  datatype Entry = Entry(pkg: Pkg, git: bool, kind: Option<Kind>, deps: seq<Pkg>)

  const ClangCount: nat := 35

  /** Row `i` of the table of build_v2_clang.py. */
  function ClangAt(i: nat): Entry
    requires i < ClangCount
  {
    match i
    case 0 => Entry(Expat, true, Some(CMake), [])
    case 1 => Entry(Gettext, false, Some(Intl), [])
    case 2 => Entry(Bzip2, true, Some(Make), [])
    case 3 => Entry(Zlib, true, Some(CMake), [])
    case 4 => Entry(Xz, false, Some(Autotools), [])
    case 5 => Entry(Zimg, true, Some(Autotools), [])
    case 6 => Entry(Libpng, true, Some(CMake), [Zlib])
    case 7 => Entry(LibJpegTurbo, true, Some(CMake), [Zlib])
    case 8 => Entry(Freetype, true, Some(Meson), [Libpng, Bzip2, Zlib])
    case 9 => Entry(Libiconv, false, Some(Autotools), [])
    case 10 => Entry(Fribidi, true, Some(Meson), [])
    case 11 => Entry(Harfbuzz, true, Some(CMake), [Freetype])
    case 12 => Entry(Fontconfig, true, Some(Meson), [Freetype, Expat, Libiconv, Gettext])
    case 13 => Entry(Libass, true, Some(Autotools), [Freetype, Fribidi, Harfbuzz, Fontconfig])
    case 14 => Entry(Lcms2, true, Some(Meson), [])
    case 15 => Entry(Libepoxy, true, Some(Meson), [])
    case 16 => Entry(SpirvHeaders, true, Some(CMake), [])
    case 17 => Entry(SpirvCross, true, Some(CMake), [])
    case 18 => Entry(Glslang, true, None, [])
    case 19 => Entry(SpirvTools, true, None, [])
    case 20 => Entry(Shaderc, true, Some(CMake), [Glslang, SpirvTools, SpirvHeaders])
    case 21 => Entry(Ffnvcodec, true, Some(Make), [])
    case 22 => Entry(Dav1d, true, Some(Meson), [])
    case 23 => Entry(Libplacebo, true, Some(Meson), [Shaderc, Lcms2, Libepoxy, Glslang])
    case 24 => Entry(Luajit, true, Some(LuaJit), [])
    case 25 => Entry(Uchardet, true, Some(CMake), [])
    case 26 => Entry(Libsoxr, true, Some(CMake), [])
    case 27 => Entry(Fftw, false, Some(Autotools), [])
    case 28 => Entry(Libsamplerate, true, Some(CMake), [])
    case 29 => Entry(Rubberband, true, Some(Meson), [Fftw, Libsamplerate])
    case 30 => Entry(Libdvdcss, true, Some(Meson), [])
    case 31 => Entry(Libdvdread, true, Some(Meson), [Libdvdcss])
    case 32 => Entry(Libdvdnav, true, Some(Meson), [Libdvdread])
    case 33 => Entry(Libbluray, true, Some(Meson), [Libdvdread, Fontconfig, Freetype])
    case _ => Entry(Libarchive, true, Some(CMake), [Zlib, Bzip2, Xz])
  }

  /** The table of build_v2_clang.py as a list. */
  function ClangTable(): (t: seq<Entry>)
    ensures |t| == ClangCount
    ensures forall i | 0 <= i < ClangCount :: t[i] == ClangAt(i)
  {
    seq(ClangCount, i requires 0 <= i < ClangCount => ClangAt(i))
  }


  const LegacyCount: nat := 30

  /** Row `i` of the table of build.py, which declares no dependencies. */
  function LegacyAt(i: nat): Entry
    requires i < LegacyCount
  {
    match i
    case 0 => Entry(Expat, true, Some(CMake), [])
    case 1 => Entry(Gettext, false, Some(Intl), [])
    case 2 => Entry(Bzip2, true, Some(Make), [])
    case 3 => Entry(Zlib, true, Some(CMake), [])
    case 4 => Entry(Xz, false, Some(Autotools), [])
    case 5 => Entry(Zimg, true, Some(Autotools), [])
    case 6 => Entry(Libpng, true, Some(CMake), [])
    case 7 => Entry(LibJpegTurbo, true, Some(CMake), [])
    case 8 => Entry(Freetype, true, Some(Meson), [])
    case 9 => Entry(Libiconv, true, Some(Autotools), [])
    case 10 => Entry(Fribidi, true, Some(Meson), [])
    case 11 => Entry(Harfbuzz, true, Some(CMake), [])
    case 12 => Entry(Fontconfig, true, Some(Meson), [])
    case 13 => Entry(Libass, true, Some(Autotools), [])
    case 14 => Entry(Lcms2, true, Some(Meson), [])
    case 15 => Entry(Libepoxy, true, Some(Meson), [])
    case 16 => Entry(SpirvHeaders, true, Some(CMake), [])
    case 17 => Entry(SpirvCross, true, Some(CMake), [])
    case 18 => Entry(Glslang, true, None, [])
    case 19 => Entry(SpirvTools, true, None, [])
    case 20 => Entry(Shaderc, true, Some(CMake), [])
    case 21 => Entry(Ffnvcodec, true, Some(Make), [])
    case 22 => Entry(Dav1d, true, Some(Meson), [])
    case 23 => Entry(Libplacebo, true, Some(Meson), [])
    case 24 => Entry(Luajit, true, Some(LuaJit), [])
    case 25 => Entry(Uchardet, true, Some(CMake), [])
    case 26 => Entry(Libsoxr, true, Some(CMake), [])
    case 27 => Entry(Fftw, false, Some(Autotools), [])
    case 28 => Entry(Libsamplerate, true, Some(CMake), [])
    case _ => Entry(Rubberband, true, Some(Meson), [])
  }

  /** Every dependency of row `i` is the package of an earlier row. */
  predicate DepsDeclaredBefore(i: nat)
    requires i < ClangCount
  {
    forall d | d in ClangAt(i).deps :: exists j | 0 <= j < i :: ClangAt(j).pkg == d
  }

  lemma DepsDeclaredBefore0()
    ensures forall i | 0 <= i < 7 :: DepsDeclaredBefore(i)
  {
    forall i | 0 <= i < 7 ensures DepsDeclaredBefore(i) {
      if i == 6 { assert ClangAt(3).pkg == Zlib; }
    }
  }

  lemma DepsDeclaredBefore7()
    ensures forall i | 7 <= i < 12 :: DepsDeclaredBefore(i)
  {
    forall i | 7 <= i < 12 ensures DepsDeclaredBefore(i) {
      if i == 7 { assert ClangAt(3).pkg == Zlib; }
      else if i == 8 { assert ClangAt(6).pkg == Libpng; assert ClangAt(2).pkg == Bzip2; assert ClangAt(3).pkg == Zlib; }
      else if i == 11 { assert ClangAt(8).pkg == Freetype; }
    }
  }

  lemma DepsDeclaredBefore12()
    ensures forall i | 12 <= i < 17 :: DepsDeclaredBefore(i)
  {
    forall i | 12 <= i < 17 ensures DepsDeclaredBefore(i) {
      if i == 12 { assert ClangAt(8).pkg == Freetype; assert ClangAt(0).pkg == Expat; assert ClangAt(9).pkg == Libiconv; assert ClangAt(1).pkg == Gettext; }
      else if i == 13 { assert ClangAt(8).pkg == Freetype; assert ClangAt(10).pkg == Fribidi; assert ClangAt(11).pkg == Harfbuzz; assert ClangAt(12).pkg == Fontconfig; }
    }
  }

  lemma DepsDeclaredBefore17()
    ensures forall i | 17 <= i < 22 :: DepsDeclaredBefore(i)
  {
    forall i | 17 <= i < 22 ensures DepsDeclaredBefore(i) {
      if i == 20 { assert ClangAt(18).pkg == Glslang; assert ClangAt(19).pkg == SpirvTools; assert ClangAt(16).pkg == SpirvHeaders; }
    }
  }

  lemma DepsDeclaredBefore22()
    ensures forall i | 22 <= i < 26 :: DepsDeclaredBefore(i)
  {
    forall i | 22 <= i < 26 ensures DepsDeclaredBefore(i) {
      if i == 23 { assert ClangAt(20).pkg == Shaderc; assert ClangAt(14).pkg == Lcms2; assert ClangAt(15).pkg == Libepoxy; assert ClangAt(18).pkg == Glslang; }
    }
  }

  lemma DepsDeclaredBefore26()
    ensures forall i | 26 <= i < 30 :: DepsDeclaredBefore(i)
  {
    forall i | 26 <= i < 30 ensures DepsDeclaredBefore(i) {
      if i == 29 { assert ClangAt(27).pkg == Fftw; assert ClangAt(28).pkg == Libsamplerate; }
    }
  }

  lemma DepsDeclaredBefore30()
    ensures forall i | 30 <= i < 35 :: DepsDeclaredBefore(i)
  {
    forall i | 30 <= i < 35 ensures DepsDeclaredBefore(i) {
      if i == 31 { assert ClangAt(30).pkg == Libdvdcss; }
      else if i == 32 { assert ClangAt(31).pkg == Libdvdread; }
      else if i == 33 { assert ClangAt(31).pkg == Libdvdread; assert ClangAt(12).pkg == Fontconfig; assert ClangAt(8).pkg == Freetype; }
      else if i == 34 { assert ClangAt(3).pkg == Zlib; assert ClangAt(2).pkg == Bzip2; assert ClangAt(4).pkg == Xz; }
    }
  }

  /** The table of build_v2_clang.py is ordered: every `depends_on` name
      refers to a row declared earlier. */
  lemma ClangTableOrdered()
    ensures forall i | 0 <= i < ClangCount :: DepsDeclaredBefore(i)
  {
    DepsDeclaredBefore0();
    DepsDeclaredBefore7();
    DepsDeclaredBefore12();
    DepsDeclaredBefore17();
    DepsDeclaredBefore22();
    DepsDeclaredBefore26();
    DepsDeclaredBefore30();
  }
}
