# LikesToLoyalty, modelled in Dafny

LikesToLoyalty collects Bluesky posts for a search query and sorts them into a marketing funnel.
The model covers the logic between the foreign calls:

- **Scraping** (`ScrapeBluesky`):
  - the paginated search loop (`Pagination`);
  - turning raw post JSON into rows;
  - the inclusive time-window filter;
  - URL stripping (`Urls`);
  - the English-only language filter;
  - the default save-file slug;
  - tagging every row with its platform.
- **Classification** (`PostsToSentiment`, `FunnelStages`):
  - each post text gets a query prefix, is stripped and is truncated;
  - the texts are cut into batches, and each batch goes to a text classifier;
  - the results are put back in input order;
  - one emotion is chosen per post, optionally skipping a top `neutral`;
  - the emotion is mapped to one of five funnel stages.

The foreign parts become parameters:

- the search endpoint (`Pagination.Server`, request to decoded reply);
- the transformer classifier (`PostsToSentiment.Classifier`, `top_k` and a batch to one label ranking per text);
- the timestamp parser behind `pd.to_datetime` (`ScrapeBluesky.DateParser`, JSON value to an integer instant, or none where it raises);
- the language detector (`ScrapeBluesky.Detector`, none where it raises).

Dates are integers. Exceptions the code lets escape become `Failure` values.

The frames that the code changes in place are arrays of rows:

- `PredictSentiment` overwrites the `text` column, then adds `emotion` and `funnel_stage`.
- `FilterByTime` overwrites `created_at`.
- `FilterByLanguage` overwrites `text` and adds `language`.

Each method is proved against a specification function (`EmotionColumn`, `TimeFiltered`, `LanguageFiltered`, `ParseAll`, `Exchanges`/`Collected`). What the code promises is proved about those functions as lemmas.

Two error paths of the code are worth knowing:

- **A missing (NaN) post text makes classification fail.** The comprehension drops the text, so the classifier returns fewer predictions than the frame has rows, and assigning the `emotion` column raises (`PostsToSentiment.MissingTextFails`).
- **A search that returns no posts makes `scrape` fail.** `pd.DataFrame([])` has no `created_at` column, so `filter_by_time` raises a `KeyError` (`ScrapeBluesky.PipelineRows`).

The end bound of the time window is whatever instant `pd.to_datetime(date_end)` denotes. For a plain date that is midnight at the start of that day, so most of the end day falls outside the window. The model keeps this in the parser parameter and does not change it.

## Model

| member | source | states |
|---|---|---|
| `FunnelStages.MapEmotionToStage` | src/posts_to_sentiment.py:102-117 | The result is always one of the five stages. For each stage, it states exactly which labels reach it (admiration alone reaches Trust). Every label outside the eleven non-Awareness table entries lands in Awareness. |
| `PostsToSentiment.SaveFilename` | src/posts_to_sentiment.py:134-135 | It returns the caller's name if one is given, else `"labeled_posts_"` followed by the load file name. |
| `PostsToSentiment.TopK` | src/posts_to_sentiment.py:71 | The classifier is asked for 2 labels exactly when neutral suppression is on, otherwise 1. |
| `PostsToSentiment.Prefixed` | src/posts_to_sentiment.py:141 | A present text becomes `"Query: " + query + ". Post: " + text`; a missing cell stays missing. |
| `Text.Strip` | src/posts_to_sentiment.py:143 | `str.strip` gives the contiguous factor of the input that remains after removing Python whitespace at both ends: everything outside it is whitespace, and its own ends are not. |
| `Text.StripIdempotent` | src/posts_to_sentiment.py:143 | Stripping twice equals stripping once. |
| `Text.SlicePrefix` | src/posts_to_sentiment.py:143 | Python `s[:n]` returns a prefix. Its length is `min(n, len)` for `n >= 0`; for negative `n` it drops `-n` elements from the end. |
| `PostsToSentiment.PreparedText` | src/posts_to_sentiment.py:143 | A prepared text is a prefix of the stripped text, and its length is `min(len(stripped), max_text_len)` for a non-negative limit. |
| `PostsToSentiment.PresentTexts` | src/posts_to_sentiment.py:143 | Never more texts than cells. Nothing is dropped exactly when no cell is missing, and then the texts are the cells. |
| `PostsToSentiment.PresentTextsAreMasked` | src/posts_to_sentiment.py:143 | The texts are exactly the values of the string cells, in column order: the cells a present-cell mask (`Seqs.Filter`) keeps. |
| `PostsToSentiment.PrepareTexts` | src/posts_to_sentiment.py:142-143 | There is one prepared text per present cell, in order, and none is longer than `max_text_len`. |
| `PostsToSentiment.Chunks` | src/posts_to_sentiment.py:156 | For a positive batch size, the chunks concatenate back to the texts. Each chunk is non-empty and at most `batch_size` long, and all but the last are exactly `batch_size` long. A negative size gives no chunks; a zero size is excluded (it raises). |
| `PostsToSentiment.ClassifyChunks` | src/posts_to_sentiment.py:154-158 | The classifier is called once per chunk, and the results are in chunk order (`executor.map` keeps order). The list exists exactly when no call raises. |
| `PostsToSentiment.ClassifyInOrder` | src/posts_to_sentiment.py:156-158 | Classifying the batches one after another, appending each result and stopping at the first call that raises, gives exactly what `list(executor.map(...))` returns or raises. |
| `PostsToSentiment.BatchedPredictionsAligned` | src/posts_to_sentiment.py:156-159 | Batching is invisible to a classifier that never raises and labels each text on its own: for any positive batch size, the flattened results are one ranking per text, in input order. |
| `PostsToSentiment.ClassifierErrorEscapes` | src/posts_to_sentiment.py:156-158 | If the classifier raises on any one batch, the exception escapes and no emotion column is produced. |
| `Seqs.FlattenAppend` | src/posts_to_sentiment.py:159 | Flattening distributes over concatenation. |
| `Seqs.FlattenAligned` | src/posts_to_sentiment.py:157-159 | If each chunk's results are one per text in that chunk, the flattened predictions are one per text of the flattened input, in the same order. |
| `PostsToSentiment.SelectEmotion` | src/posts_to_sentiment.py:161-166 | With suppression off, the result is the top label. With suppression on, it is the top label unless that is `neutral`, and then the second label. The result is `neutral` only if both are. It fails exactly when the indexing raises. |
| `PostsToSentiment.TopKSuffices` | src/posts_to_sentiment.py:161-166 | A ranking of at least `top_k` labels always yields an emotion. |
| `PostsToSentiment.AllSelectable` | src/posts_to_sentiment.py:161-166 | If every ranking has at least `top_k` labels, the emotion list never fails. |
| `PostsToSentiment.SelectEmotions` | src/posts_to_sentiment.py:161-166 | There is one emotion per prediction, in order, and the list fails if any single selection fails. |
| `PostsToSentiment.PreparedPerRow` | src/posts_to_sentiment.py:141-143 | With no missing text, there is one prepared text per row: row `i`'s text with the query prefix, stripped and truncated. |
| `PostsToSentiment.EmotionColumnPerPost` | src/posts_to_sentiment.py:141-166 | Assume a per-text classifier returning at least `top_k` labels, a positive batch size, and no missing text. Then the emotion column succeeds, and entry `i` is the selection from the ranking of post `i`'s own prepared, prefixed text, whatever the batch size. |
| `PostsToSentiment.MissingTextFails` | src/posts_to_sentiment.py:141-162 | With a missing text, the predictions are fewer than the rows, and the column assignment fails with a length mismatch. |
| `PostsToSentiment.PredictSentiment` | src/posts_to_sentiment.py:134-167 | The text column is overwritten with the prefixed text. The batches are classified one after another. On success, `emotion` and `funnel_stage` hold the emotion column and its stages, and the save name is returned. On failure (a zero batch size, a classifier exception, a too-short ranking or a length mismatch), those columns are untouched and the exception is returned, while the text column stays overwritten. |
| `ScrapeBluesky.Slug` | src/scrape.py:53 | The slug is never longer than the query and holds only lower-case ASCII letters and digits. |
| `ScrapeBluesky.SlugIsFilterThenLower` | src/scrape.py:53 | The slug is the query's `[a-zA-Z0-9]` characters, in order, each lower-cased. |
| `ScrapeBluesky.SlugAppend` | src/scrape.py:53 | The slug of a concatenation is the concatenation of the slugs. |
| `ScrapeBluesky.SlugFixedPoint` | src/scrape.py:53 | A query is its own slug if and only if it consists of lower-case letters and digits. |
| `ScrapeBluesky.SlugIdempotent` | src/scrape.py:53 | Slugging a slug changes nothing. |
| `ScrapeBluesky.SaveFilename` | src/scrape.py:52-53 | It returns the caller's name if given, else `bsky_` followed by the slug of the query, so only slug characters follow the prefix. |
| `Pagination.NextRequest` | src/scrape.py:100-105 | The request carries the query and asks for `min(100, n - collected)` posts: never more than 100 or than the posts still missing, and either 100 or `n - collected`. So the limit is at least 1 while fewer than `n` posts are in hand. The cursor is sent exactly when the last one was truthy. |
| `Pagination.Exchanges` | src/scrape.py:99-118 | The loop always makes at least one request. |
| `Pagination.CollectedAppend` | src/scrape.py:114 | Collecting pages distributes over the sequence of exchanges. |
| `Pagination.SearchPosts` | src/scrape.py:95-120 | The loop returns exactly the in-order concatenation of the pages of the request/reply trace that `Exchanges` defines. |
| `Pagination.RequestsFollowProtocol` | src/scrape.py:100-105 | Every request carries the query and asks for `min(100, n - posts collected before it)`, so never more than 100. The first request has no cursor, and each later one has the cursor of the reply before it. |
| `Pagination.StopsExactly` | src/scrape.py:116-118 | After round `k`, the loop continues if and only if that reply had a truthy cursor and a non-empty page and fewer than `n` posts are in hand. So every round but the last continues, and the last stops. |
| `Pagination.HonestServerBound` | src/scrape.py:102-117 | If the endpoint never returns more posts than the limit asks for, the posts collected never exceed `max(n, 0)`. |
| `Pagination.TwoPageExample` | tests/test_scrape_bluesky.py:46-54 | Two one-post pages, the first with a cursor, with two posts requested, give both posts in order. |
| `ScrapeBluesky.ParsePost` | src/scrape.py:133-145 | Parsing a post raises exactly when the post is not a dict, or when `author`, `record` or `embed` is present but not a dict. |
| `ScrapeBluesky.GetNestedReadsPath` | src/scrape.py:135-143 | On dicts, `post.get(outer, {}).get(inner)` is the value at the key path, or `None` where a key is missing. |
| `ScrapeBluesky.ParsePostReadsPaths` | src/scrape.py:134-144 | Each field of a parsed record comes from its key path (for example, `embed_type` from `embed.$type`), with `None` where a key is missing, and `created_at` stays raw. |
| `ScrapeBluesky.ParseAll` | src/scrape.py:132-147 | There is one record per post, in order. It fails, with `AttributeError`, exactly when some post cannot be parsed. |
| `ScrapeBluesky.ParseMetadata` | src/scrape.py:132-147 | The loop returns what `ParseAll` specifies. |
| `ScrapeBluesky.ParsePostExample` | tests/test_scrape_bluesky.py:56-68 | The record of the parsing test has handle `user1` and embed type `image`. |
| `Seqs.Filter` | src/scrape.py:164-167 | A boolean mask keeps only rows that pass, keeps every row that passes, and never grows the frame. |
| `Seqs.FilterAppend` | src/scrape.py:164-167 | Masking distributes over concatenation, so kept rows stay in their original order. |
| `Seqs.FilterKeepsAll` | src/scrape.py:164-167 | A mask keeps the whole frame if and only if every row passes. |
| `ScrapeBluesky.FilterByTime` | src/scrape.py:163-168 | `created_at` is converted in place, and it stays converted even if a bound then fails to parse. The method returns what `TimeFiltered` specifies, and an unparseable cell leaves the frame untouched. |
| `ScrapeBluesky.TimeFilterKeepsWindow` | src/scrape.py:164-167 | On success, both bounds parsed. A converted row is kept if and only if `start <= created_at <= end`, both ends inclusive. Rows with a null `created_at` (NaT) never survive. |
| `ScrapeBluesky.TimeFilterExample` | tests/test_scrape_bluesky.py:26-31 | Of the three dates of the time-filter test, the two inside the window stay. |
| `Urls.MatchLength` | src/scrape.py:180 | A match starts at the front exactly when `https://`, `http://` or `www.` is followed by non-whitespace. It is a run without whitespace that ends before whitespace or at the end, so the greedy `\S+` is taken. |
| `Urls.StripUrls` | src/scrape.py:180-181 | `re.sub` never lengthens the text. |
| `Urls.StripUrlsDropsMatch` | src/scrape.py:180-181 | A URL, up to the whitespace after it, is deleted as a whole. |
| `Urls.StripUrlsKeepsPrefix` | src/scrape.py:180-181 | Text in front of which no match starts passes through unchanged. |
| `Urls.StripUrlsIsUrlFree` | src/scrape.py:180-181 | The output contains no match anywhere: deleting matches never creates a new one. |
| `Urls.StripUrlsKeepsUrlFree` | src/scrape.py:180-181 | Text without a URL is left unchanged. |
| `Urls.StripUrlsIdempotent` | src/scrape.py:180-181 | Stripping twice equals stripping once. |
| `Urls.StripUrlsExample` | tests/test_scrape_bluesky.py:15-18 | `"Check this out https://example.com and www.test.com"` becomes `"Check this out  and "`. |
| `ScrapeBluesky.DetectLanguage` | src/scrape.py:193-196 | It returns the detector's language code, or `"na"` when the detector raises. |
| `ScrapeBluesky.FilterByLanguage` | src/scrape.py:208-210 | Every text is URL-stripped and every row tagged with its language, in place. The method returns what `LanguageFiltered` specifies, and a non-string text raises before anything is written. |
| `ScrapeBluesky.LanguageFilterKeepsEnglish` | src/scrape.py:208-210 | Every kept row is tagged `en` and has a URL-free text. A row is kept if and only if the detector names English for its URL-free text. |
| `ScrapeBluesky.TagPlatform` | src/scrape.py:60 | Every row gets platform `bluesky`, and nothing else changes. |
| `ScrapeBluesky.Scrape` | src/scrape.py:52-67 | The method returns the frame that `Pipeline` specifies for the posts of the search trace (parse, time window, English, platform tag) with the save name, or that pipeline's exception. |
| `ScrapeBluesky.PipelineRows` | src/scrape.py:52-60 | Every row of the final frame has platform `bluesky` and language `en`, a URL-free text, and a `created_at` inside the parsed window. There are no more rows than posts, and an empty search fails on the missing `created_at` column. |

## Left out

- **Model inference.** Loading the tokenizer and model and running the transformer are foreign calls. The classifier is a function parameter returning label rankings, or none where it raises. Which exception it raises is not kept (all become `ClassifierError`), and neither are the scores.
- **Thread pool.** `executor.map` preserves order, so the model classifies the batches one after another.
- **HTTP and authentication.**
  - `create_session` and the bearer token are not modelled.
  - The credential file and the `ScrapeBluesky` constructor are not modelled.
  - The endpoint is a parameter that takes a request and gives a decoded reply.
- **Malformed replies.** A reply that is not a JSON object, a `posts` key holding `null` (which makes `extend` raise), and a non-string cursor are not modelled. The reply type admits only an absent or present list and an absent or string cursor.
- Pagination.SearchPosts: the endpoint is modelled as a function of the request alone, so an endpoint whose answer depends on earlier calls is covered only when the cursor carries that state.
- **Language detection.** `langdetect.detect` is a function parameter, with none standing for an exception. Its probabilistic behaviour is not modelled, and neither is the test that "This is a test sentence." is English.
- **Timestamp parsing.** `pd.to_datetime` with `format="mixed"` is a parameter, and instants are integers. The same parser reads the column and the two bounds. A null cell becomes NaT, and an instant is left as it is.
- **File I/O.** CSV loading and saving, `load_posts`, the data-root path, the `stream` switch and the messages printed are not modelled. Both pipelines are modelled as in streaming mode: they return the frame and the name.
- **Other frame columns.** `PostsToSentiment.Row` holds only the columns classification reads or writes.
- **Column dtypes.** A text cell is a string or missing, so the frame's text column is always of object dtype. When pandas reads that column as a numeric dtype, the query prefix raises `TypeError` before anything is written. This happens when every text in the CSV is empty (float64) or numeric (int64). The model does not capture this case. For an all-missing column, `MissingTextFails` gives a length mismatch instead.
- **`model_name`.** It only selects the foreign model.
- **The dashboard.** The Streamlit application and its helpers are not part of this model.
