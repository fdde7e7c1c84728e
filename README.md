# camerax in Dafny

This is a model of the logic inside the `camerax` Android library. The library wraps CameraX in two views:

- `BarCodeReaderView` reads bar codes;
- `ImageCaptureView` takes pictures.

Around those views sit three frame analyzers (ZXing, ZBar and Firebase ML Kit) and a preview builder that fits the camera buffer into a `TextureView`. Android, CameraX and the vision libraries cannot be modelled. The model covers the parts written in the library itself:

- the luminance-plane rotator and the ZXing analyzer's outcome dispatch (`frame_rotation.dfy`, `barcode_analyzer.dfy`);
- the preview fit-transform state machine and its three event callbacks (`preview_fit.dfy`);
- the ZBar frame preparation: NV21 assembly, the fixed-point grey conversion and the last-symbol-wins result selection (`zbar_analyzer.dfy`);
- the reader view's success latch, lens choice, camera-permission dispatch and torch query (`reader_view.dfy`);
- the capture view's storage-and-camera permission dispatch, capture gating and EXIF-orientation correction (`capture_view.dfy`);
- the Firebase rotation conversion and how its exceptions leave `analyze` (`firebase_analyzer.dfy`);
- shared values: nullable values, status enums, configuration, Android constants and frames (`camera_types.dfy`).

Each piece keeps the source's own form:

- An object whose fields change is a `class` with `modifies` clauses. Its observable calls are recorded in a ghost trace: listener calls, `setTransform`, permission requests, binding and callbacks.
- Array loops are methods with loop invariants, proved against a reference function. For example, `RotateImageArray` is proved against `Rotate`, and `ToGreyData` against `Greys`.
- Pure `when` mappings are functions.
- Closed libraries are function parameters: the ZXing decoder, the JPEG round trip, the ZBar scanner and the Firebase detector.
- Platform answers are plain parameters: permission checks, rationale flags, the display and the EXIF tag.

## Model

| member | source | states |
|---|---|---|
| CameraTypes.LensFacingFor | camerax/src/main/java/com/pb/camerax/BarCodeReaderView.kt:118-121 | the front lens exactly when the configured string equals "FRONT", the back lens for every other string |
| CameraTypes.DefaultConfigurationUsesFrontLens | camerax/src/main/java/com/pb/camerax/BarCodeCameraConfiguration.kt:5-8 | the default configuration selects the front lens |
| CameraTypes.IsYuvThreePlane | camerax/src/main/java/com/pb/camerax/BarCodeAnalyzer.kt:36-39 | an image is accepted exactly when it has three planes and one of the formats YUV_420_888, YUV_422_888, YUV_444_888 |
| FrameRotation.DstIndexBijective | camerax/src/main/java/com/pb/camerax/BarCodeAnalyzer.kt:101-110 | for 90/180/270, over x < width and y < height the destination index stays below width*height and is one-to-one; every index below width*height is written, by the pixel the inverse maps give |
| FrameRotation.LeftInverse | camerax/src/main/java/com/pb/camerax/BarCodeAnalyzer.kt:104-109 | for a pixel inside the plane, `DstIndex` and `SrcIndex` stay below width*height, and the pixel is recovered from its destination index |
| FrameRotation.RightInverse | camerax/src/main/java/com/pb/camerax/BarCodeAnalyzer.kt:104-109 | every destination index below width*height is `DstIndex` of an in-range pixel |
| FrameRotation.SourceOf | camerax/src/main/java/com/pb/camerax/BarCodeAnalyzer.kt:104-109 | the source index copied to a destination below width*height lies inside the first width*height bytes |
| FrameRotation.Turned | camerax/src/main/java/com/pb/camerax/BarCodeAnalyzer.kt:100-110 | the new buffer is as long as the old one; its bytes are given by `TurnedPixel` and `TurnedTailIsZero` |
| FrameRotation.Rotate | camerax/src/main/java/com/pb/camerax/BarCodeAnalyzer.kt:93-120 | an angle that fails the guards leaves the plane as it is; an index error happens exactly for 90/180/270 with a short buffer; otherwise the buffer length and the pixel count are kept |
| FrameRotation.RotateIgnoresOtherAngles | camerax/src/main/java/com/pb/camerax/BarCodeAnalyzer.kt:94-95 | angle 0, or one that is not a multiple of 90, leaves bytes, width and height unchanged |
| FrameRotation.RotateFailsOnShortBuffer | camerax/src/main/java/com/pb/camerax/BarCodeAnalyzer.kt:100-110 | a call fails with an index error exactly when the angle is 90, 180 or 270 and the buffer is shorter than width*height |
| FrameRotation.RotateShape | camerax/src/main/java/com/pb/camerax/BarCodeAnalyzer.kt:100-119 | the new buffer has the old length; 180 keeps the dimensions, every other rotating angle swaps them |
| FrameRotation.TurnedPixel | camerax/src/main/java/com/pb/camerax/BarCodeAnalyzer.kt:104-109 | 90 writes src[x+y*w] to x*h+h-1-y, 180 writes it to w*(h-1-y)+w-1-x, and 270 writes src[y*w+w-1-x] to y+x*h |
| FrameRotation.TurnedTailIsZero | camerax/src/main/java/com/pb/camerax/BarCodeAnalyzer.kt:100-110 | bytes at or beyond width*height, and all bytes for an angle with no branch, end up zero |
| FrameRotation.Turned180Reverses | camerax/src/main/java/com/pb/camerax/BarCodeAnalyzer.kt:106-107 | 180 gives the reversal of the first width*height bytes: dst[i] == src[w*h-1-i] |
| FrameRotation.RotateOddMultipleZeroes | camerax/src/main/java/com/pb/camerax/BarCodeAnalyzer.kt:94-119 | a multiple of 90 outside {0, 90, 180, 270} (360, -90, ...) zeroes the whole buffer and swaps width and height |
| FrameRotation.RoundTrip90Then270 | camerax/src/main/java/com/pb/camerax/BarCodeAnalyzer.kt:101-119 | with a buffer of exactly width*height bytes, 90 then 270 restores bytes and dimensions |
| FrameRotation.RoundTrip270Then90 | camerax/src/main/java/com/pb/camerax/BarCodeAnalyzer.kt:101-119 | with a buffer of exactly width*height bytes, 270 then 90 restores bytes and dimensions |
| FrameRotation.RoundTrip180Twice | camerax/src/main/java/com/pb/camerax/BarCodeAnalyzer.kt:101-119 | with a buffer of exactly width*height bytes, 180 twice restores bytes and dimensions |
| FrameRotation.RotatedImage.constructor | camerax/src/main/java/com/pb/camerax/BarCodeAnalyzer.kt:123 | the holder starts with the given buffer, width and height |
| FrameRotation.ScanRow | camerax/src/main/java/com/pb/camerax/BarCodeAnalyzer.kt:102-111 | one row of the scan either copies every pixel of the row to its destination, so rows 0..y are in place and every byte not yet written is still zero, or reports an index error; an error can happen only when the buffer is shorter than width*height |
| FrameRotation.RotateImageArray | camerax/src/main/java/com/pb/camerax/BarCodeAnalyzer.kt:93-120 | the holder ends up as `Rotate` of its old value: unchanged for ignored angles, a fresh buffer otherwise; it throws exactly when `Rotate` fails, leaving the holder unchanged |
| BarCodeAnalysis.UnsupportedFrameReport | camerax/src/main/java/com/pb/camerax/BarCodeAnalyzer.kt:83-85 | a frame that is not three-plane YUV is reported as FormatException, with null code and dimensions and the rotation passed through |
| BarCodeAnalysis.DecodeReport | camerax/src/main/java/com/pb/camerax/BarCodeAnalyzer.kt:66-78 | each decoder outcome maps to exactly one status (Success, NotFoundException, ChecksumException, FormatException); only Success carries the text and the rotated width and height; the rotation is passed through |
| BarCodeAnalysis.NotifyAll | camerax/src/main/java/com/pb/camerax/BarCodeAnalyzer.kt:70 | one call per registered listener, in registration order, each with the same report |
| BarCodeAnalysis.BarCodeAnalyzer.constructor | camerax/src/main/java/com/pb/camerax/BarCodeAnalyzer.kt:11-14 | a new analyzer has no listeners and has made no calls |
| BarCodeAnalysis.BarCodeAnalyzer.OnFrameAnalyzed | camerax/src/main/java/com/pb/camerax/BarCodeAnalyzer.kt:15 | registering appends the listener and makes no call |
| BarCodeAnalysis.BarCodeAnalyzer.Notify | camerax/src/main/java/com/pb/camerax/BarCodeAnalyzer.kt:70 | the forEach loop calls every listener once, in order, with the report |
| BarCodeAnalysis.BarCodeAnalyzer.Analyze | camerax/src/main/java/com/pb/camerax/BarCodeAnalyzer.kt:26-90 | no image: nothing happens; not three-plane YUV: every listener hears FormatException; otherwise the luminance plane is rotated and decoded, every listener hears the mapped outcome, and then the reader is reset; an index error in the rotation escapes before any listener call |
| AutoFitPreview.DisplaySurfaceRotation | camerax/src/main/java/com/pb/camerax/AutoFitPreviewBuilder.kt:189-195 | ROTATION_0/90/180/270 give 0/90/180/270 degrees; any other constant, and a null display, give null |
| AutoFitPreview.ScaledHeight | camerax/src/main/java/com/pb/camerax/AutoFitPreviewBuilder.kt:165-174 | the scaled height is the longer view-finder side |
| AutoFitPreview.ScaledWidth | camerax/src/main/java/com/pb/camerax/AutoFitPreviewBuilder.kt:163-174 | the scaled width relates to the scaled height as the buffer's height to its width (the buffer is rotated), computed exactly |
| AutoFitPreview.FitFor | camerax/src/main/java/com/pb/camerax/AutoFitPreviewBuilder.kt:153-181 | the center-crop fit: rotation by minus the display rotation about the view-finder centre; the picture's height is scaled to the longer view-finder side, and the picture keeps the rotated buffer's proportions (xScale*vfWidth*bufWidth == yScale*vfHeight*bufHeight) |
| AutoFitPreview.FitPortraitExample | camerax/src/main/java/com/pb/camerax/AutoFitPreviewBuilder.kt:163-178 | a 1080x1920 view finder with a 640x480 buffer gives scaled height 1920, scaled width 1440, yScale 1 and xScale 4/3 |
| AutoFitPreview.UpdateStep | camerax/src/main/java/com/pb/camerax/AutoFitPreviewBuilder.kt:114-185 | a transform is applied exactly when a texture is attached, the rotation is known, some input differs from the stored one and all four sides are non-zero; then the stored state equals the inputs |
| AutoFitPreview.UpdateSkipsUnchangedInputs | camerax/src/main/java/com/pb/camerax/AutoFitPreviewBuilder.kt:121-127 | unchanged rotation and sizes change nothing and apply no transform |
| AutoFitPreview.UpdateIgnoresMissingInputs | camerax/src/main/java/com/pb/camerax/AutoFitPreviewBuilder.kt:119-131 | a missing texture view or an unknown rotation changes nothing and applies no transform |
| AutoFitPreview.UpdateIsStaged | camerax/src/main/java/com/pb/camerax/AutoFitPreviewBuilder.kt:133-151 | the rotation is stored first; a zero buffer side stops before the buffer size is stored; a zero view-finder side stops after it but before the view-finder size is stored |
| AutoFitPreview.UpdateIsIdempotent | camerax/src/main/java/com/pb/camerax/AutoFitPreviewBuilder.kt:121-150 | repeating a call with the same arguments never applies a transform again |
| AutoFitPreview.UpdateKeepsRotationKnown | camerax/src/main/java/com/pb/camerax/AutoFitPreviewBuilder.kt:129-135 | once the stored rotation is known it never becomes unknown |
| AutoFitPreview.UpdateKeepsRightAngle | camerax/src/main/java/com/pb/camerax/AutoFitPreviewBuilder.kt:133-135 | a stored rotation of 0, 90, 180 or 270 stays one of those under any update fed the display's rotation |
| AutoFitPreview.AppliedBy | camerax/src/main/java/com/pb/camerax/AutoFitPreviewBuilder.kt:184 | one call sets at most one transform, and exactly the one the step applies |
| AutoFitPreview.AutoFitPreviewBuilder.constructor | camerax/src/main/java/com/pb/camerax/AutoFitPreviewBuilder.kt:57-64 | the builder remembers the view finder's display and its rotation, 0 when that is unknown, so the stored rotation starts known and is a right angle |
| AutoFitPreview.AutoFitPreviewBuilder.UpdateTransform | camerax/src/main/java/com/pb/camerax/AutoFitPreviewBuilder.kt:114-185 | the stored fields and the transforms set follow `UpdateStep`; given a right-angle rotation or none, the stored rotation stays a right angle |
| AutoFitPreview.AutoFitPreviewBuilder.OnDisplayChanged | camerax/src/main/java/com/pb/camerax/AutoFitPreviewBuilder.kt:47-54 | acts only while the view finder exists and only for its own display, passing both stored sizes; the stored rotation stays a right angle |
| AutoFitPreview.AutoFitPreviewBuilder.OnPreviewOutputUpdate | camerax/src/main/java/com/pb/camerax/AutoFitPreviewBuilder.kt:70-82 | stores the buffer rotation, then passes the new texture size with the stored view-finder size; the stored rotation stays a right angle |
| AutoFitPreview.AutoFitPreviewBuilder.OnLayoutChange | camerax/src/main/java/com/pb/camerax/AutoFitPreviewBuilder.kt:85-90 | passes the stored buffer size with Size(right-left, bottom-top); the stored rotation stays a right angle |
| ZBarAnalysis.Red | camerax/src/main/java/com/pb/camerax/ZBarAnalyzer.kt:48 | the body selects bits 16-23 of the pixel; the contract bounds the channel to [0, 255] |
| ZBarAnalysis.Green | camerax/src/main/java/com/pb/camerax/ZBarAnalyzer.kt:49 | the body selects bits 8-15 of the pixel; the contract bounds the channel to [0, 255] |
| ZBarAnalysis.Blue | camerax/src/main/java/com/pb/camerax/ZBarAnalyzer.kt:50 | the body selects bits 0-7 of the pixel; the contract bounds the channel to [0, 255] |
| ZBarAnalysis.Luma | camerax/src/main/java/com/pb/camerax/ZBarAnalyzer.kt:48-50 | the result is the weighted channel sum shifted right by 16, i.e. the floor of that sum divided by 65536 |
| ZBarAnalysis.LumaInByteRange | camerax/src/main/java/com/pb/camerax/ZBarAnalyzer.kt:48-50 | the weights sum to 65536, so channels in [0, 255] give a grey value in [0, 255] |
| ZBarAnalysis.LumaOfGrey | camerax/src/main/java/com/pb/camerax/ZBarAnalyzer.kt:48-50 | equal channels c give exactly c: black stays 0 and white stays 255 |
| ZBarAnalysis.LumaMonotone | camerax/src/main/java/com/pb/camerax/ZBarAnalyzer.kt:48-50 | the grey value never decreases when a channel increases |
| ZBarAnalysis.GreyOf | camerax/src/main/java/com/pb/camerax/ZBarAnalyzer.kt:48-50 | a pixel's grey byte is the weighted channel sum shifted right by 16 and fits a byte without wrapping |
| ZBarAnalysis.Greys | camerax/src/main/java/com/pb/camerax/ZBarAnalyzer.kt:46-51 | one grey entry per pixel, entry i computed from pixel i alone |
| ZBarAnalysis.ToGreyData | camerax/src/main/java/com/pb/camerax/ZBarAnalyzer.kt:46-51 | the loop fills a fresh array whose contents are exactly `Greys` of the pixel array |
| ZBarAnalysis.CopyInto | camerax/src/main/java/com/pb/camerax/ZBarAnalyzer.kt:97-99 | a buffer get writes its bytes at the offset and leaves the rest of the array alone |
| ZBarAnalysis.ToNv21 | camerax/src/main/java/com/pb/camerax/ZBarAnalyzer.kt:87-99 | the NV21 buffer is ySize+uSize+vSize long and holds the Y bytes at 0, the V bytes at ySize and the U bytes at ySize+vSize |
| ZBarAnalysis.SymbolText | camerax/src/main/java/com/pb/camerax/ZBarAnalyzer.kt:65 | `"" + sym.data` is the symbol's data, or the four letters "null" when the data is null |
| ZBarAnalysis.LastSymbolText | camerax/src/main/java/com/pb/camerax/ZBarAnalyzer.kt:62-66 | the text left by the selection loop: that of the last symbol, or "" when there is none |
| ZBarAnalysis.LaterSymbolWins | camerax/src/main/java/com/pb/camerax/ZBarAnalyzer.kt:64-66 | a symbol appended after any others decides the text alone |
| ZBarAnalysis.NullDataIsReported | camerax/src/main/java/com/pb/camerax/ZBarAnalyzer.kt:65-67 | a last symbol with null data yields "null", which is not empty, so the callback fires with it |
| ZBarAnalysis.SelectResult | camerax/src/main/java/com/pb/camerax/ZBarAnalyzer.kt:62-66 | the loop's result is exactly `LastSymbolText` of the symbols |
| ZBarAnalysis.GreyImageOf | camerax/src/main/java/com/pb/camerax/ZBarAnalyzer.kt:40-54 | the scanner sees a W x H image of W*H grey bytes, which are `Greys` of the bitmap's pixels |
| ZBarAnalysis.Analyze | camerax/src/main/java/com/pb/camerax/ZBarAnalyzer.kt:24-83 | no image, or not three-plane YUV: no callback; otherwise the callback fires at most once, exactly when scanImage returns non-zero and the last symbol's text is not empty, and it receives that text |
| BarCodeReader.CameraPermissionAction | camerax/src/main/java/com/pb/camerax/BarCodeReaderView.kt:160-175 | the camera request with a granted first answer starts the camera; with a denied first answer it reports an init failure, "always denied" when no rationale is shown; nothing else acts |
| BarCodeReader.OtherAnswersDoNothing | camerax/src/main/java/com/pb/camerax/BarCodeReaderView.kt:160-175 | another request code, or an empty answer, neither starts the camera nor calls back |
| BarCodeReader.LatchDeliversFirstOnly | camerax/src/main/java/com/pb/camerax/BarCodeReaderView.kt:102-107 | over any run of ZBar results, onSuccess receives only the first code after a reset, and none once latched; the view's invariant keeps its delivered codes equal to this run function over the codes that arrived since initCamera |
| BarCodeReader.BarCodeReaderView.constructor | camerax/src/main/java/com/pb/camerax/BarCodeReaderView.kt:23-29 | no preview, no lens, no listener, latch open |
| BarCodeReader.BarCodeReaderView.SetListener | camerax/src/main/java/com/pb/camerax/BarCodeReaderView.kt:27 | setting the listener changes nothing else |
| BarCodeReader.BarCodeReaderView.StartCameraNow | camerax/src/main/java/com/pb/camerax/BarCodeReaderView.kt:135-145 | starting binds the use cases with a new preview whose torch is off |
| BarCodeReader.BarCodeReaderView.InitCamera | camerax/src/main/java/com/pb/camerax/BarCodeReaderView.kt:111-133 | clears the latch, chooses the lens, keeps the configuration, then starts the camera if camera permission is held and asks for it otherwise |
| BarCodeReader.BarCodeReaderView.OnZBarResult | camerax/src/main/java/com/pb/camerax/BarCodeReaderView.kt:102-107 | while the latch is open the code goes to onSuccess with status Success; the latch is then closed; the code is added to the arrivals since initCamera, and the delivered codes stay what `LatchDeliveries` lets through from them: at most one success per initCamera |
| BarCodeReader.BarCodeReaderView.EnableTorch | camerax/src/main/java/com/pb/camerax/BarCodeReaderView.kt:147-149 | only a started preview changes its torch |
| BarCodeReader.BarCodeReaderView.IsTorchOn | camerax/src/main/java/com/pb/camerax/BarCodeReaderView.kt:151-153 | false without a preview, the preview's torch state otherwise |
| BarCodeReader.BarCodeReaderView.OnRequestPermissionsResult | camerax/src/main/java/com/pb/camerax/BarCodeReaderView.kt:156-176 | acts exactly as `CameraPermissionAction` decides |
| ImageCapture.StoragePermissionAction | camerax/src/main/java/com/pb/camerax/ImageCaptureView.kt:132-169 | the storage request with at least two answers: both granted starts the camera; a denied storage answer is reported before a denied camera answer, each "always denied" when its own rationale is not shown |
| ImageCapture.ShortAnswersDoNothing | camerax/src/main/java/com/pb/camerax/ImageCaptureView.kt:132-137 | another request code, or fewer than two answers, does nothing |
| ImageCapture.FailureStatusFor | camerax/src/main/java/com/pb/camerax/ImageCaptureView.kt:139-167 | PermissionStorageFailure names WRITE_EXTERNAL_STORAGE and PermissionCameraFailure names CAMERA, and nothing else |
| ImageCapture.AnswersFollowRequestOrder | camerax/src/main/java/com/pb/camerax/ImageCaptureView.kt:132-169 | when answer i is the first denial, the dispatch reports the failure naming the permission requested at index i of the storage-and-camera request, with that permission's own rationale flag |
| ImageCapture.RotateImage | camerax/src/main/java/com/pb/camerax/ImageCaptureView.kt:285-292 | rotating always ends with a horizontal mirror |
| ImageCapture.FlipImage | camerax/src/main/java/com/pb/camerax/ImageCaptureView.kt:262-268 | one horizontal mirror |
| ImageCapture.RotateImageIfRequired | camerax/src/main/java/com/pb/camerax/ImageCaptureView.kt:271-283 | ROTATE_90/180/270 give exactly [rotate by that angle, mirror], FLIP_VERTICAL gives [rotate by 180, mirror], FLIP_HORIZONTAL gives [mirror], any other tag gives no operation |
| ImageCapture.Then | camerax/src/main/java/com/pb/camerax/ImageCaptureView.kt:262-292 | a mirror toggles the mirrored state, a rotation keeps it |
| ImageCapture.Net | camerax/src/main/java/com/pb/camerax/ImageCaptureView.kt:285-292 | the operations, applied in order, place the picture at a rotation of 0 to 3 quarter turns, mirrored or not |
| ImageCapture.RotatedPicturesAreMirrored | camerax/src/main/java/com/pb/camerax/ImageCaptureView.kt:276-292 | every picture rotated for its orientation comes out mirrored, turned by minus the requested quarter turns |
| ImageCapture.HalfTurnMatchesVerticalFlip | camerax/src/main/java/com/pb/camerax/ImageCaptureView.kt:277-279 | ROTATE_180 and FLIP_VERTICAL pictures end up identically placed, as a vertical mirror |
| ImageCapture.OtherOrientationsKeepPicture | camerax/src/main/java/com/pb/camerax/ImageCaptureView.kt:281 | NORMAL, TRANSPOSE, TRANSVERSE and unknown tags leave the picture as it is |
| ImageCapture.ImageCaptureView.constructor | camerax/src/main/java/com/pb/camerax/ImageCaptureView.kt:33-40 | no capture use case, no lens, no listener, no calls |
| ImageCapture.ImageCaptureView.SetListener | camerax/src/main/java/com/pb/camerax/ImageCaptureView.kt:39 | setting the listener changes nothing else |
| ImageCapture.ImageCaptureView.StartCameraNow | camerax/src/main/java/com/pb/camerax/ImageCaptureView.kt:115-126 | binds the use cases and only then reports CameraInitSuccess; every init success in the trace directly follows a bind |
| ImageCapture.ImageCaptureView.InitCamera | camerax/src/main/java/com/pb/camerax/ImageCaptureView.kt:90-113 | chooses the lens and keeps the configuration; starts the camera only when both camera and storage permission are held, otherwise asks for both |
| ImageCapture.ImageCaptureView.OnRequestPermissionsResult | camerax/src/main/java/com/pb/camerax/ImageCaptureView.kt:128-171 | acts exactly as `StoragePermissionAction` decides |
| ImageCapture.ImageCaptureView.CaptureImage | camerax/src/main/java/com/pb/camerax/ImageCaptureView.kt:209-235 | without both permissions: onInitFailure(false, PermissionCameraFailure) and no picture; with them and a capture use case: one picture, mirrored exactly when the lens is FRONT |
| ImageCapture.ImageCaptureView.OnImageSaved | camerax/src/main/java/com/pb/camerax/ImageCaptureView.kt:176-187 | the saved picture is reported as CaptureSuccess after the correction for its EXIF orientation |
| ImageCapture.ImageCaptureView.OnError | camerax/src/main/java/com/pb/camerax/ImageCaptureView.kt:198-206 | a capture error is reported with its message as CaptureFailure |
| FirebaseAnalysis.RotationDegreesToFirebaseRotation | camerax/src/main/java/com/pb/camerax/FirebaseAnalyzer.kt:48-56 | 0/90/180/270 give ROTATION_0/90/180/270; any other angle throws |
| FirebaseAnalysis.RotationConversionInverts | camerax/src/main/java/com/pb/camerax/FirebaseAnalyzer.kt:49-53 | every Firebase rotation code comes from exactly the angle 90 times the code |
| FirebaseAnalysis.Analyze | camerax/src/main/java/com/pb/camerax/FirebaseAnalyzer.kt:23-46 | an uninitialized Firebase is caught; an unsupported angle and a missing image escape; otherwise the detector's barcodes go to the callback unchanged, or its failure is logged |
| FirebaseAnalysis.UnsupportedAnglesEscape | camerax/src/main/java/com/pb/camerax/FirebaseAnalyzer.kt:33-54 | 360 and -90 throw IllegalArgumentException, which `analyze` does not catch |

## Left out

- Everything runs sequentially. The analyzer thread that writes `isSuccess` and the builder's fields races with the UI thread, and that race is not modelled.
- `startCamera` posts its work to the view's message queue. Here that work runs at once: binding, and for the capture view, the init-success callback.
- Android lifecycle plumbing is not modelled: `buildUseCases`, use-case configuration, `unbindAll`/`bindToLifecycle`, removing and re-adding the texture view, and registering the display listener. A started camera is the event `CameraStarted`/`Bound`, with a fresh preview whose torch is off.
- Requesting permissions from a fragment rather than an activity is not modelled. Both ask for the same permissions with the same request code.
- The closed vision libraries are function parameters, not models:
  - the ZXing `MultiFormatReader` and `HybridBinarizer`;
  - the ZBar `ImageScanner` and its density configuration;
  - the Firebase detector and its asynchronous task.
- Result points are not modelled.
- GoogleVisionAnalyzer.kt is not part of this model. Besides the format check the ZXing analyzer already has, it only calls a closed detector.
- The JPEG step is the parameter `toBitmap`: `YuvImage.compressToJpeg` and `BitmapFactory.decodeByteArray`. So are `getPixels`.
- File I/O is not modelled: `createFile`, `getOutputDirectory`, `MediaScannerConnection`, reading the EXIF tag (it is a parameter) and `recycle`.
- Pixels of captured pictures are not modelled. Bitmap operations are the list `BitmapOp`, and their net effect is a rotation-and-mirror `Placement`.
- AutoFitPreview.FitFor: the `Matrix` calls and single-precision floats are left out. The transform is recorded by its parameters, and the scaled width is an exact rational without `roundToInt`.
- FrameRotation.RotateImageArray: 32-bit overflow of width*height and of the index arithmetic is not modelled. Frames are at most 1080p, far from the limit.
- FrameRotation.RotateImageArray: the bytes are the unsigned `bv8`, while Kotlin's `Byte` is signed. The bit patterns are the same.
- ZBarAnalysis.GreyOf: the result is the unsigned value of the byte that `toByte` stores. It never exceeds 255, so no wrap-around is lost.
- Logging and `printStackTrace` are not modelled.
- The analyzers' `rotationDegrees` is passed through, or ignored where the source ignores it (ZBar).
