/** The Material component (src/Renderer/components/material.cpp): render
    state flags and GL settings that the render loop reads when it binds a
    material. The texture object and the GL texture calls are not modelled. */
module Materials {
  import opened Common

  // OpenGL tokens used as defaults. The engine's MATERIAL_DEPTH_* and BLEND_*
  // macros are taken to stand for the OpenGL tokens of the same meaning.
  const GL_LESS: int := 0x0201
  const GL_SRC_COLOR: int := 0x0300
  const GL_ONE_MINUS_SRC_COLOR: int := 0x0301
  const GL_SRC_ALPHA: int := 0x0302
  const GL_ONE_MINUS_SRC_ALPHA: int := 0x0303
  const GL_BACK: int := 0x0405
  const GL_CCW: int := 0x0901
  const GL_LINEAR_MIPMAP_LINEAR: int := 0x2703
  const GL_FUNC_ADD: int := 0x8006

  const MATERIAL_DEPTH_LESS := GL_LESS
  const BLEND_SRC_COLOR := GL_SRC_COLOR
  const BLEND_SRC_ALPHA := GL_SRC_ALPHA
  const BLEND_ONE_MINUS_SRC_COLOR := GL_ONE_MINUS_SRC_COLOR
  const BLEND_ONE_MINUS_SRC_ALPHA := GL_ONE_MINUS_SRC_ALPHA
  const BLEND_EQUATION_ADD := GL_FUNC_ADD

  /** Opaque identity of a shader program. */
  type ShaderId = nat

  /** Every field of a Material, as one value. */
  datatype MaterialState = MaterialState(
    width: int, height: int,
    doDepthTest: bool, doBlending: bool, doFaceCulling: bool, doShadowPass: bool,
    shadowDistance: real, shadowStencilLength: real,
    textureFiltration: int,
    depthFunc: int, faceWinding: int, faceCullSide: int,
    blendSource: int, blendDestination: int,
    blendAlphaSource: int, blendAlphaDestination: int,
    blendFunction: int,
    shader: Option<ShaderId>,
    ambient: Color, diffuse: Color, specular: Color)

  /** What Material::Material() leaves in a new material. */
  const DefaultState := MaterialState(
    0, 0,
    true, false, true, true,
    30.0, 5.0,
    GL_LINEAR_MIPMAP_LINEAR,
    MATERIAL_DEPTH_LESS, GL_CCW, GL_BACK,
    BLEND_SRC_COLOR, BLEND_SRC_ALPHA,
    BLEND_ONE_MINUS_SRC_COLOR, BLEND_ONE_MINUS_SRC_ALPHA,
    BLEND_EQUATION_ADD,
    None,
    Color(0.0, 0.0, 0.0, 1.0), Color(1.0, 1.0, 1.0, 1.0), Color(0.0, 0.0, 0.0, 1.0))

  class Material {
    var width: int
    var height: int
    var doDepthTest: bool
    var doBlending: bool
    var doFaceCulling: bool
    var doShadowPass: bool
    var shadowDistance: real
    var shadowStencilLength: real
    var textureFiltration: int
    var depthFunc: int
    var faceWinding: int
    var faceCullSide: int
    var blendSource: int
    var blendDestination: int
    var blendAlphaSource: int
    var blendAlphaDestination: int
    var blendFunction: int
    var shader: Option<ShaderId>
    var ambient: Color
    var diffuse: Color
    var specular: Color

    /** All fields of this material as one value. */
    function State(): MaterialState
      reads this
    {
      MaterialState(width, height, doDepthTest, doBlending, doFaceCulling, doShadowPass,
                    shadowDistance, shadowStencilLength, textureFiltration,
                    depthFunc, faceWinding, faceCullSide,
                    blendSource, blendDestination, blendAlphaSource, blendAlphaDestination,
                    blendFunction, shader, ambient, diffuse, specular)
    }

    /** Depth test on, blending off, culling on, shadow pass on, depth
        function LESS, counter-clockwise winding, back faces culled, no
        shader; ambient and specular black, diffuse white, all opaque. */
    constructor ()
      ensures State() == DefaultState
    {
      width, height := 0, 0;
      doDepthTest, doBlending, doFaceCulling, doShadowPass := true, false, true, true;
      shadowDistance, shadowStencilLength := 30.0, 5.0;
      textureFiltration := GL_LINEAR_MIPMAP_LINEAR;
      depthFunc, faceWinding, faceCullSide := MATERIAL_DEPTH_LESS, GL_CCW, GL_BACK;
      blendSource, blendDestination := BLEND_SRC_COLOR, BLEND_SRC_ALPHA;
      blendAlphaSource, blendAlphaDestination := BLEND_ONE_MINUS_SRC_COLOR, BLEND_ONE_MINUS_SRC_ALPHA;
      blendFunction := BLEND_EQUATION_ADD;
      shader := None;
      ambient := Color(0.0, 0.0, 0.0, 1.0);
      diffuse := Color(1.0, 1.0, 1.0, 1.0);
      specular := Color(0.0, 0.0, 0.0, 1.0);
    }

    method EnableDepthTest()
      modifies this`doDepthTest
      ensures State() == old(State()).(doDepthTest := true)
    {
      doDepthTest := true;
    }

    method DisableDepthTest()
      modifies this`doDepthTest
      ensures State() == old(State()).(doDepthTest := false)
    {
      doDepthTest := false;
    }

    method SetDepthFunction(func: int)
      modifies this`depthFunc
      ensures State() == old(State()).(depthFunc := func)
    {
      depthFunc := func;
    }

    method GetTextureFiltration() returns (filtration: int)
      ensures filtration == textureFiltration
    {
      filtration := textureFiltration;
    }

    method SetTextureFiltration(filtration: int)
      modifies this`textureFiltration
      ensures State() == old(State()).(textureFiltration := filtration)
    {
      textureFiltration := filtration;
    }

    /** Reading the filtration back after setting it gives the value set. */
    method SetThenGetTextureFiltration(f: int) returns (g: int)
      modifies this`textureFiltration
      ensures g == f
      ensures State() == old(State()).(textureFiltration := f)
    {
      SetTextureFiltration(f);
      g := GetTextureFiltration();
    }

    method EnableCulling()
      modifies this`doFaceCulling
      ensures State() == old(State()).(doFaceCulling := true)
    {
      doFaceCulling := true;
    }

    method DisableCulling()
      modifies this`doFaceCulling
      ensures State() == old(State()).(doFaceCulling := false)
    {
      doFaceCulling := false;
    }

    method SetFaceCullingSide(side: int)
      modifies this`faceCullSide
      ensures State() == old(State()).(faceCullSide := side)
    {
      faceCullSide := side;
    }

    method SetFaceWindingOrder(direction: int)
      modifies this`faceWinding
      ensures State() == old(State()).(faceWinding := direction)
    {
      faceWinding := direction;
    }

    method EnableBlending()
      modifies this`doBlending
      ensures State() == old(State()).(doBlending := true)
    {
      doBlending := true;
    }

    method DisableBlending()
      modifies this`doBlending
      ensures State() == old(State()).(doBlending := false)
    {
      doBlending := false;
    }

    /** Sets the colour factors only; the alpha factors keep their values. */
    method SetBlending(src: int, dest: int)
      modifies this`blendSource, this`blendDestination
      ensures State() == old(State()).(blendSource := src, blendDestination := dest)
    {
      blendSource := src;
      blendDestination := dest;
    }

    /** Sets the alpha factors only. */
    method SetBlendingAlpha(srca: int, desta: int)
      modifies this`blendAlphaSource, this`blendAlphaDestination
      ensures State() == old(State()).(blendAlphaSource := srca, blendAlphaDestination := desta)
    {
      blendAlphaSource := srca;
      blendAlphaDestination := desta;
    }

    method SetBlendingFunction(func: int)
      modifies this`blendFunction
      ensures State() == old(State()).(blendFunction := func)
    {
      blendFunction := func;
    }

    method EnableShadowPass()
      modifies this`doShadowPass
      ensures State() == old(State()).(doShadowPass := true)
    {
      doShadowPass := true;
    }

    method DisableShadowPass()
      modifies this`doShadowPass
      ensures State() == old(State()).(doShadowPass := false)
    {
      doShadowPass := false;
    }
  }
}
