/**
 * The part of the GL context that the texture quad touches, as abstract
 * state: the set of live texture names, the texture bound to GL_TEXTURE_2D
 * on texture unit 0, and a log of the texture calls that shape or fill the
 * bound texture. Nothing here talks to a GPU.
 */
module GlState {

  /** Where the bytes of an uploaded level come from. */
  datatype PixelSource = ImagePixels | MipBuffer(index: nat)

  /** One texture call, recorded against the texture bound when it was made. */
  datatype TexCall =
    | SetMinFilter(tex: nat, mipmapped: bool)             // GL_TEXTURE_MIN_FILTER: LINEAR_MIPMAP_LINEAR or LINEAR
    | SetMaxLevel(tex: nat, maxLevel: int)                // GL_TEXTURE_MAX_LEVEL
    | Storage(tex: nat, levels: int, width: nat, height: nat)  // glTexStorage2D
    | SubImage(tex: nat, level: nat, width: nat, height: nat, source: PixelSource)  // glTexSubImage2D
    | AutoMipmap(tex: nat)                             // glGenerateMipmap

  class Gl {
    var live: set<nat>
    var bound: nat
    var log: seq<TexCall>
    // the names handed out so far are all below nextName
    var nextName: nat

    ghost predicate Valid()
      reads this
    {
      0 !in live && nextName >= 1 && forall n :: n in live ==> n < nextName
    }

    constructor ()
      ensures Valid()
      ensures live == {} && bound == 0 && log == []
    {
      live, bound, log, nextName := {}, 0, [], 1;
    }

    /** glGenTextures(1, &name): a nonzero name not currently in use. */
    method GenTexture() returns (name: nat)
      requires Valid()
      modifies this`live, this`nextName
      ensures Valid()
      ensures name != 0 && name !in old(live)
      ensures live == old(live) + {name}
    {
      name := nextName;
      live := live + {name};
      nextName := nextName + 1;
    }

    /** glDeleteTextures(1, &name): 0 and unused names are ignored; deleting
        the bound texture reverts the binding to 0. */
    method DeleteTexture(name: nat)
      requires Valid()
      modifies this`live, this`bound
      ensures Valid()
      ensures live == old(live) - {name}
      ensures bound == if name in old(live) && old(bound) == name then 0 else old(bound)
    {
      if name in live {
        live := live - {name};
        if bound == name {
          bound := 0;
        }
      }
    }

    /** glBindTexture(GL_TEXTURE_2D, name). */
    method BindTexture(name: nat)
      modifies this`bound
      ensures bound == name
    {
      bound := name;
    }

    /** A texture-parameter, storage, upload or mipmap-generation call on the bound texture. */
    method Record(call: TexCall)
      requires call.tex == bound
      modifies this`log
      ensures log == old(log) + [call]
    {
      log := log + [call];
    }
  }
}
