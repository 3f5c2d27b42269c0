/**
 * Filesystem paths and URLs as the bridge uses them: a `PathBuf` is its
 * sequence of components, a `hyper::Url` of a relative scheme (http, https)
 * is everything before its path plus the path's segments.
 */
module Web {

  /** A filesystem path (`PathBuf`) as its components, root first. */
  datatype Path = Path(components: seq<string>) {

    /** `PathBuf::push` of one relative component (also `Path::join`, which pushes onto a copy). */
    function Push(component: string): Path {
      Path(components + [component])
    }

    /** `PathBuf::set_file_name`: replaces the final component, or appends when there is none. */
    function SetFileName(name: string): Path {
      if |components| == 0 then Path([name])
      else Path(components[..|components| - 1] + [name])
    }
  }

  /** A URL: scheme, host and port as `origin`, then the segments of its path. */
  datatype Url = Url(origin: string, path: seq<string>) {

    /** `url.path_mut().unwrap().push(segment)`. */
    function PushSegment(segment: string): Url {
      Url(origin, path + [segment])
    }

    /** The URL as `Display` writes it: the origin, then `/` before every segment. */
    function ToString(): string {
      origin + SegmentsText(path)
    }
  }

  function SegmentsText(segments: seq<string>): string {
    if |segments| == 0 then ""
    else SegmentsText(segments[..|segments| - 1]) + "/" + segments[|segments| - 1]
  }
}
